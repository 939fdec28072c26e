/**
 The transfer protocol as a state machine: onramp rows, offramp rows, the operations in flight on them and
 the liquidity provider's withdrawals. An operation is split at its awaits, so a step is one read, one repository
 update (its guard's read and its write together) or one provider call, and between two steps of an operation any
 other step may run. What an operation read earlier is kept as a snapshot in its process record, or as the status
 `seen` of a single write, and may be stale when it writes.
 */
module Transfer {
  import opened Wrappers
  import opened Ramps
  import opened DepositAmount
  import opened PairCheck
  import Text

  // ---------- the liquidity provider ----------

  datatype LpState = LpPending | LpProcessing | LpSuccessful | LpFailed | LpRefunded

  predicate Reissueable(state: LpState) {
    state.LpFailed? || state.LpRefunded?
  }

  /** Idempotency keys of an offramp's fiat withdrawals: the first one, and a reissue of an earlier one. */
  datatype PayoutKey = FirstKey | ReissueKey(previous: nat)

  datatype Payout = Payout(id: nat, key: PayoutKey, state: LpState)

  function PayoutIds(ps: seq<Payout>): (ids: seq<nat>)
    ensures |ids| == |ps| && forall i :: 0 <= i < |ps| ==> ids[i] == ps[i].id
  {
    seq(|ps|, i requires 0 <= i < |ps| => ps[i].id)
  }

  predicate HasKey(ps: seq<Payout>, key: PayoutKey) {
    exists i :: 0 <= i < |ps| && ps[i].key == key
  }

  predicate HasPayout(ps: seq<Payout>, id: nat) {
    exists i :: 0 <= i < |ps| && ps[i].id == id
  }

  /** The provider replays a known key and otherwise opens a new pending withdrawal. */
  function CreatePayout(ps: seq<Payout>, key: PayoutKey, freshId: nat): seq<Payout> {
    if HasKey(ps, key) then ps else ps + [Payout(freshId, key, LpPending)]
  }

  function FindKey(ps: seq<Payout>, key: PayoutKey): (r: nat)
    requires HasKey(ps, key)
    ensures exists i :: 0 <= i < |ps| && ps[i].key == key && ps[i].id == r
  {
    if ps[0].key == key then ps[0].id else FindKey(ps[1..], key)
  }

  /** The provider's answer to a read by id. */
  function PayoutState(ps: seq<Payout>, id: nat): (r: Option<LpState>)
    ensures r.Some? ==> exists i :: 0 <= i < |ps| && ps[i].id == id && ps[i].state == r.value
    ensures r.None? ==> !HasPayout(ps, id)
  {
    if ps == [] then None
    else if ps[0].id == id then Some(ps[0].state)
    else PayoutState(ps[1..], id)
  }

  datatype RetryDecision = Handoff | Reissue(withdrawalId: nat) | Reject(code: string)

  /** Routing of the operator's retry, on the payout the row is attached to and its live state if it loads. */
  function DecideRetry(current: Option<nat>, live: Option<LpState>): RetryDecision {
    if current.None? then Handoff
    else if live.None? then Reject("PAYOUT_STATUS_UNKNOWN")
    else if live.value.LpSuccessful? then Reject("PAYOUT_ALREADY_COMPLETED")
    else if Reissueable(live.value) then Reissue(current.value)
    else Reject("PAYOUT_IN_PROGRESS")
  }

  // ---------- operations in flight ----------

  /** An advance of an onramp. `row` is the row it read at its start. */
  datatype OnPhase =
    | Looking                                        // the row is read, the offramps are not
    | Checked(off: nat, snap: Offramp, amount: real) // one settleable offramp found, claim not yet tried
    | Claimed(index: nat)                            // claim number `index` is ours, the onramp not yet completed
    | Sending                                        // about to mark CRYPTO_INITIATED
    | Calling                                        // about to call the provider
    | Answered(withdrawalId: Option<nat>)            // about to write CRYPTO_PENDING

  datatype OnProc = OnProc(on: nat, row: Onramp, phase: OnPhase)

  type AutoFailStatus = s: OffStatus | OfframpAutoFail(s) witness OffStatus.Expired

  type WaitingStatus = s: OffStatus | Settleable(s) witness OffStatus.AwaitingCrypto

  /** The row write that ends an operation on an offramp, computed from the row it read. */
  datatype Write =
    | CreditWrite(amount: real)
    | CancelWrite
    | FailWrite(next: AutoFailStatus)          // expiry sweep, failed provisioning, failed withdrawal
    | MarkSuccessWrite
    | MarkFailedWrite
    | PaidWrite(paid: bool)                    // payout paid out, or only funded
    | LateFailureWrite                         // payout failed after it was funded
    | ProvisionWrite(waiting: WaitingStatus)   // deposit account active, or its KYC pending
    | FirstWrite(withdrawalId: nat)
    | HandoffErrorWrite
    | ReissueWrite(newId: nat, oldId: nat)

  datatype OffPhase =
    | CallingFirst(snap: Offramp)
    | LoadingLp(withdrawalId: nat)
    | Rereading(withdrawalId: nat)
    | CallingReissue(snap: Offramp, withdrawalId: nat)
    | Writing(snap: Offramp, write: Write)

  datatype OffProc = OffProc(off: nat, phase: OffPhase)

  /** History: which onramp was settled into which offramp, for how much and by which operation. */
  datatype Claim = Claim(on: nat, off: nat, amount: real, op: nat)

  datatype State = State(
    ons: map<nat, Onramp>, offs: map<nat, Offramp>,
    onProcs: map<nat, OnProc>, offProcs: map<nat, OffProc>,
    crypto: map<nat, seq<nat>>,       // the provider's crypto withdrawals, by onramp
    payouts: map<nat, seq<Payout>>,   // the provider's fiat withdrawals, by offramp, oldest first
    nextId: nat, claims: seq<Claim>)

  predicate Init(s: State) {
    && (forall o :: o in s.ons ==> s.ons[o].status in {OnStatus.Created, OnStatus.AwaitingFunds} && s.ons[o].receiptWithdrawalId == None)
    && (forall o :: o in s.offs ==>
          s.offs[o].status in {OffStatus.Created, OffStatus.AwaitingCrypto} &&
          s.offs[o].timeline == BlankTimeline && s.offs[o].refs == BlankRefs)
    && s.onProcs == map[] && s.offProcs == map[]
    && s.crypto.Keys == s.ons.Keys && (forall o :: o in s.crypto ==> s.crypto[o] == [])
    && s.payouts.Keys == s.offs.Keys && (forall o :: o in s.payouts ==> s.payouts[o] == [])
    && s.claims == []
  }

  // ---------- steps on an onramp row ----------

  function WithOn(s: State, on: nat, row: Onramp): State {
    s.(ons := s.ons[on := row])
  }

  /** The advance `pid` moves on to a new phase, or ends. */
  function PutOn(s: State, pid: nat, proc: Option<OnProc>): State {
    s.(onProcs := if proc.Some? then s.onProcs[pid := proc.value] else s.onProcs - {pid})
  }

  /** `updateOnrampStatus` on the current row. */
  function UpdateOn(row: Onramp, next: OnStatus, allowAfterFunds: bool): Onramp {
    row.(status := OnrampStatusAfter(row, next, allowAfterFunds))
  }

  /** The offramps the settler looks at: the linked one, else the business's open ones at the paid address. */
  function Candidates(on: OnrampInfo, offs: map<nat, Offramp>): set<nat> {
    var address := Text.Trim(on.dest.walletAddress);
    var linked := Text.Trim(on.dest.offrampId);
    if address == "" then {}
    else if linked != "" then set o | o in offs && offs[o].info.txnRef == linked
    else set o | o in offs && offs[o].info.userId == on.userId && Settleable(offs[o].status) &&
                 offs[o].info.deposit.address == address
  }

  function Matches(on: OnrampInfo, offs: map<nat, Offramp>, now: int): set<nat> {
    set o | o in offs && o in Candidates(on, offs) && CheckPair(on, offs[o], now).Pair?
  }

  /** The onramp pays this offramp: it names it, or names none and pays into its deposit address. */
  predicate Chosen(on: OnrampInfo, off: Offramp, now: int) {
    Fits(on, off, now) &&
    if Text.Trim(on.dest.offrampId) != "" then off.info.txnRef == Text.Trim(on.dest.offrampId)
    else off.info.deposit.address == Text.Trim(on.dest.walletAddress)
  }

  /** With an address to pay to: the offramp that is named, or else the business's own waiting ones at that address. */
  lemma CandidatesExactly(on: OnrampInfo, offs: map<nat, Offramp>, o: nat)
    ensures o in Candidates(on, offs) <==>
              o in offs && Text.Trim(on.dest.walletAddress) != "" &&
              if Text.Trim(on.dest.offrampId) != "" then offs[o].info.txnRef == Text.Trim(on.dest.offrampId)
              else offs[o].info.userId == on.userId && offs[o].status in {OffStatus.AwaitingCrypto, OffStatus.CryptoPending} &&
                   offs[o].info.deposit.address == Text.Trim(on.dest.walletAddress)
  {
    hide Text.Trim;
  }

  lemma MatchesExactly(on: OnrampInfo, offs: map<nat, Offramp>, now: int, o: nat)
    ensures o in Matches(on, offs, now) <==> o in offs && Chosen(on, offs[o], now)
  {
    if o in offs { PairsExactly(on, offs[o], now); }
    hide CheckPair, Text.Trim, Text.Norm;
  }

  /** May the crypto still be sent on-chain from this row? */
  predicate SendEligible(row: Onramp) {
    row.status.FiatProcessed? ||
    ((row.status.CryptoFailed? || row.status.CryptoInitiated? || row.status.CryptoPending?) && row.receiptWithdrawalId.None?)
  }

  /** The part of an advance after settlement did not happen: send on-chain if the row allows it. */
  function FallThrough(on: nat, row: Onramp): Option<OnProc> {
    if SendEligible(row) && row.info.sendable then Some(OnProc(on, row, Sending)) else None
  }

  /** The element of a set of one. */
  function Sole(ids: set<nat>): (r: Option<nat>)
    ensures r.Some? ==> ids == {r.value}
    ensures forall o :: ids == {o} ==> r == Some(o)
  {
    if exists o :: o in ids && ids == {o} then
      var o :| o in ids && ids == {o};
      Some(o)
    else None
  }

  /** The one offramp the onramp can be settled into, if there is exactly one. */
  function SoleMatch(row: Onramp, offs: map<nat, Offramp>, now: int): (r: Option<nat>)
    ensures r.Some? ==> r.value in offs && CheckPair(row.info, offs[r.value], now).Pair?
  {
    var r := Sole(Matches(row.info, offs, now));
    assert r.Some? ==> r.value in Matches(row.info, offs, now);
    r
  }

  /** How an advance goes on from the row it reads. */
  function FirstOnProc(row: Onramp, on: nat, offs: map<nat, Offramp>, now: int): Option<OnProc> {
    var sole := if row.status.FiatProcessed? && IsFiatToFiat(Text.Trim(row.info.flow)) then SoleMatch(row, offs, now) else None;
    if sole.Some? then
      var off := offs[sole.value];
      Some(OnProc(on, row, Checked(sole.value, off, CheckPair(row.info, off, now).amount)))
    else FallThrough(on, row)
  }

  function ReadOnramp(s: State, pid: nat, on: nat): State
    requires on in s.ons
  {
    PutOn(s, pid, Some(OnProc(on, s.ons[on], Looking)))
  }

  /** The query for candidates, and what the advance makes of them with the row it read before. */
  function LookForMatch(s: State, pid: nat, now: int): State
    requires pid in s.onProcs
  {
    PutOn(s, pid, FirstOnProc(s.onProcs[pid].row, s.onProcs[pid].on, s.offs, now))
  }

  /** Both reads with nothing in between. */
  function BeginAdvance(s: State, pid: nat, on: nat, now: int): State
    requires on in s.ons
  {
    PutOn(s, pid, FirstOnProc(s.ons[on], on, s.offs, now))
  }

  function SettledTimeline(t: Timeline, on: nat, amount: real): Timeline {
    t.(cryptoReceivedAmount := Some(amount), cryptoConfirmedAt := true, lastDepositCreditedAt := true,
       settledByOnramp := Some(on))
  }

  /** `claimOfframpCrypto`: one conditional update, on the current status alone. */
  function TryClaim(s: State, pid: nat): State
    requires pid in s.onProcs && s.onProcs[pid].phase.Checked? && s.onProcs[pid].phase.off in s.offs
  {
    var proc := s.onProcs[pid];
    var phase := proc.phase;
    var current := s.offs[phase.off];
    if Settleable(current.status) then
      var funded := current.(status := OffStatus.CryptoConfirmed, refs := phase.snap.refs,
                             timeline := SettledTimeline(phase.snap.timeline, proc.on, phase.amount));
      PutOn(s, pid, Some(proc.(phase := Claimed(|s.claims|))))
        .(offs := s.offs[phase.off := funded], claims := s.claims + [Claim(proc.on, phase.off, phase.amount, pid)])
    else PutOn(s, pid, FallThrough(proc.on, proc.row))
  }

  function CompleteInternally(s: State, pid: nat): State
    requires pid in s.onProcs && s.onProcs[pid].on in s.ons
  {
    var on := s.onProcs[pid].on;
    PutOn(WithOn(s, on, UpdateOn(s.ons[on], OnStatus.Completed, false).(receiptWithdrawalId := None)), pid, None)
  }

  function MarkInitiated(s: State, pid: nat): State
    requires pid in s.onProcs && s.onProcs[pid].on in s.ons
  {
    var proc := s.onProcs[pid];
    var s' := PutOn(s, pid, Some(proc.(phase := Calling)));
    if proc.row.status.FiatProcessed? then WithOn(s', proc.on, UpdateOn(s.ons[proc.on], OnStatus.CryptoInitiated, false))
    else s'
  }

  /** What comes back from the provider: accepted, refused, or accepted with the answer lost. */
  datatype Reply = Accepted | Rejected | Lost

  /** The crypto withdrawal is keyed by the onramp's reference, so a second call is a replay. */
  function SendCrypto(s: State, pid: nat, reply: Reply): State
    requires pid in s.onProcs && s.onProcs[pid].on in s.crypto
  {
    var proc := s.onProcs[pid];
    var held := s.crypto[proc.on];
    var held' := if reply.Rejected? || held != [] then held else [s.nextId];
    var answer := if reply.Accepted? then Some(held'[0]) else None;
    PutOn(s, pid, Some(proc.(phase := Answered(answer)))).(crypto := s.crypto[proc.on := held'], nextId := s.nextId + 1)
  }

  function MarkSent(s: State, pid: nat): State
    requires pid in s.onProcs && s.onProcs[pid].phase.Answered? && s.onProcs[pid].on in s.ons
  {
    var proc := s.onProcs[pid];
    var row := UpdateOn(s.ons[proc.on], OnStatus.CryptoPending, false).(receiptWithdrawalId := proc.phase.withdrawalId);
    PutOn(WithOn(s, proc.on, row), pid, None)
  }

  /** Single writes to an onramp row by other operations, guarded on `seen`, the status that the operation read before. */
  datatype OnWrite =
    | FiatCredited(seen: OnStatus)                // deposit.credited, or an operator's manual credit
    | AutoFail(seen: OnStatus, next: OnStatus)    // expiry sweep, failed provisioning, failed withdrawal
    | Provision(seen: OnStatus, active: bool)     // deposit account active, or its KYC pending
    | MarkDone                                    // operator: success
    | MarkFailed                                  // operator: failed, allowed after funds
    | Paid(seen: OnStatus, withdrawalId: nat)     // withdrawal.successful
    | Legacy(next: OnStatus)                      // the provider's older onramp.* events

  predicate AutoFailSource(seen: OnStatus, next: OnStatus) {
    (seen.AwaitingFunds? && next.Expired?) ||
    ((seen.AwaitingFunds? || seen.FiatPending? || seen.Created?) && next.FiatFailed?) ||
    (seen.CryptoPending? && next.CryptoFailed?)
  }

  /** Statuses from which a credited deposit starts an onramp's crypto leg. */
  predicate Creditable(status: OnStatus) {
    status.AwaitingFunds? || status.FiatPending? || status.Expired?
  }

  predicate OnWriteEnabled(w: OnWrite) {
    match w
    case FiatCredited(seen) => Creditable(seen)
    case AutoFail(seen, next) => AutoFailSource(seen, next)
    case Provision(seen, _) => seen.AwaitingFunds? || seen.FiatPending? || seen.Created?
    case MarkDone => true
    case MarkFailed => true
    case Paid(seen, _) => !seen.Completed? && !seen.Expired?
    case Legacy(next) => next in {OnStatus.AwaitingFunds, OnStatus.FiatPending, OnStatus.FiatProcessed,
                                  OnStatus.CryptoInitiated, OnStatus.Completed, OnStatus.CryptoFailed}
  }

  /** Webhooks about a withdrawal tell the truth: the provider holds it. */
  predicate Truthful(held: seq<nat>, w: OnWrite) {
    (w.Paid? ==> w.withdrawalId in held) && (w.AutoFail? && w.next.CryptoFailed? ==> held != [])
  }

  /** The write tests a status that it read. */
  predicate Reads(w: OnWrite) {
    w.FiatCredited? || w.AutoFail? || w.Provision? || w.Paid?
  }

  function ApplyOnWrite(row: Onramp, w: OnWrite): Onramp {
    match w
    case FiatCredited(_) => UpdateOn(row, OnStatus.FiatProcessed, false).(receiptWithdrawalId := None)
    case AutoFail(_, next) =>
      var row' := UpdateOn(row, next, false);
      if next.CryptoFailed? then row'.(receiptWithdrawalId := None) else row'
    case Provision(seen, active) => UpdateOn(row, if active then OnStatus.AwaitingFunds else seen, false)
    case MarkDone => UpdateOn(row, OnStatus.Completed, false).(receiptWithdrawalId := None)
    case MarkFailed => UpdateOn(row, OnStatus.FiatFailed, true)
    case Paid(_, wid) => UpdateOn(row, OnStatus.Completed, false).(receiptWithdrawalId := Some(wid))
    case Legacy(next) =>
      var row' := UpdateOn(row, next, false);
      if next.Completed? then row'.(receiptWithdrawalId := None) else row'
  }

  // ---------- steps on an offramp row ----------

  datatype OffOp =
    | Credit(amount: real)
    | Cancel
    | Expire(now: int)
    | MarkOffDone
    | MarkOffFailed
    | PayoutPaid(withdrawalId: Option<nat>, paid: bool)
    | PayoutFailed(withdrawalId: Option<nat>)
    | PayoutFailedLate(withdrawalId: Option<nat>)
    | ProvisionActive
    | ProvisionPending
    | ProvisionFailed
    | HandOff
    | Retry

  /** The deadline of the deposit: that of its instructions, else that of the rate. */
  function Deadline(info: OfframpInfo): Option<int> {
    if info.deposit.depositBy.Some? then info.deposit.depositBy else info.rateExpiresAt
  }

  predicate PastDue(info: OfframpInfo, now: int) {
    Deadline(info).Some? && Deadline(info).value <= now
  }

  /** An offramp that may expire could still be paired exactly when only its rate gives the deadline. */
  lemma ExpiryAndPairingDifferExactly(info: OfframpInfo, now: int)
    ensures PastDue(info, now) && WindowOpen(info.deposit, now) <==>
              info.deposit.depositBy.None? && info.rateExpiresAt.Some? && info.rateExpiresAt.value <= now
    ensures !WindowOpen(info.deposit, now) ==> PastDue(info, now)
  {
  }

  /** The payout that webhooks are compared with: the provider refs first, then the timeline. */
  function ExpectedPayout(row: Offramp): Option<nat> {
    if row.refs.palremitWithdrawalId.Some? then row.refs.palremitWithdrawalId else row.timeline.fiatWithdrawalId
  }

  /** A payout webhook is for this row unless both sides name a withdrawal and they differ. */
  predicate WebhookMatches(row: Offramp, withdrawalId: Option<nat>) {
    withdrawalId.None? || ExpectedPayout(row) in {None, withdrawalId}
  }

  /** The guard an operation applies to the row it reads first. */
  predicate OpEnabled(row: Offramp, op: OffOp) {
    match op
    case Credit(amount) =>
      amount >= 0.0 && Expected(row.info).Some? &&
      (Settleable(row.status) || row.status.CryptoReceived? || row.status.Expired?)
    case Cancel => row.status.Created? || row.status.AwaitingCrypto?
    case Expire(now) => row.status.AwaitingCrypto? && PastDue(row.info, now)
    case MarkOffDone => true
    case MarkOffFailed => true
    case PayoutPaid(wid, paid) =>
      WebhookMatches(row, wid) &&
      (row.status.FiatPending? || row.status.FiatInitiated? || row.status.CryptoConfirmed? ||
       ((row.status.Failed? || row.status.FiatFailed?) && row.refs.markedManually) ||
       (row.status.Completed? && paid && !row.timeline.fiatWithdrawalCompleted))
    case PayoutFailed(wid) =>
      WebhookMatches(row, wid) && (row.status.FiatPending? || row.status.FiatInitiated? || row.status.CryptoConfirmed?)
    case PayoutFailedLate(wid) => WebhookMatches(row, wid) && row.status.Completed?
    case ProvisionActive => Settleable(row.status)
    case ProvisionPending => Settleable(row.status)
    case ProvisionFailed => Settleable(row.status)
    case HandOff =>
      row.status.CryptoConfirmed? && !row.timeline.fiatWithdrawalCompleted &&
      row.timeline.fiatWithdrawalId.None? && row.info.payable
    case Retry => CurrentPayout(row).Some?
  }

  function FirstPhase(row: Offramp, op: OffOp): OffPhase
    requires OpEnabled(row, op)
  {
    match op
    case Credit(amount) => Writing(row, CreditWrite(amount))
    case Cancel => Writing(row, CancelWrite)
    case Expire(_) => Writing(row, FailWrite(OffStatus.Expired))
    case MarkOffDone => Writing(row, MarkSuccessWrite)
    case MarkOffFailed => Writing(row, MarkFailedWrite)
    case PayoutPaid(_, paid) => Writing(row, PaidWrite(paid))
    case PayoutFailed(_) => Writing(row, FailWrite(OffStatus.Failed))
    case PayoutFailedLate(_) => Writing(row, LateFailureWrite)
    case ProvisionActive => Writing(row, ProvisionWrite(OffStatus.AwaitingCrypto))
    case ProvisionPending => Writing(row, ProvisionWrite(row.status))
    case ProvisionFailed => Writing(row, FailWrite(OffStatus.CryptoFailed))
    case HandOff => CallingFirst(row)
    case Retry => LoadingLp(CurrentPayout(row).value)
  }

  function CreditedTotal(snap: Offramp, amount: real): real {
    PriorReceived(snap.timeline) + amount
  }

  predicate CreditCompletes(snap: Offramp, amount: real) {
    Expected(snap.info).Some? &&
    DepositComplete(CreditedTotal(snap, amount), Expected(snap.info).value, snap.info.sourceCurrency)
  }

  /** The status a write asks for. */
  function WriteStatus(snap: Offramp, w: Write): OffStatus {
    match w
    case CreditWrite(amount) => if CreditCompletes(snap, amount) then OffStatus.CryptoConfirmed else OffStatus.CryptoReceived
    case CancelWrite => OffStatus.Cancelled
    case FailWrite(next) => next
    case MarkSuccessWrite => OffStatus.Completed
    case MarkFailedWrite => OffStatus.Failed
    case PaidWrite(_) => OffStatus.Completed
    case LateFailureWrite => OffStatus.Completed
    case ProvisionWrite(waiting) => waiting
    case FirstWrite(_) => OffStatus.FiatPending
    case HandoffErrorWrite => OffStatus.CryptoConfirmed
    case ReissueWrite(_, _) => OffStatus.FiatPending
  }

  /** The timeline after a write: rebuilt from the snapshot, or the current one when the write leaves it out. */
  function WriteTimeline(row: Offramp, snap: Offramp, w: Write): Timeline {
    var t := snap.timeline;
    match w
    case CreditWrite(amount) =>
      t.(cryptoReceivedAmount := Some(CreditedTotal(snap, amount)), lastDepositCreditedAt := true,
         cryptoConfirmedAt := t.cryptoConfirmedAt || CreditCompletes(snap, amount))
    case CancelWrite => t
    case FailWrite(_) => row.timeline
    case MarkSuccessWrite => t.(fiatWithdrawalCompleted := true)
    case MarkFailedWrite => row.timeline
    case PaidWrite(paid) => t.(fiatWithdrawalCompleted := t.fiatWithdrawalCompleted || paid)
    case LateFailureWrite => t
    case ProvisionWrite(_) => row.timeline
    case FirstWrite(id) => t.(fiatWithdrawalId := Some(id))
    case HandoffErrorWrite => t
    case ReissueWrite(newId, _) => t.(fiatWithdrawalId := Some(newId), fiatWithdrawalCompleted := false)
  }

  function WriteRefs(row: Offramp, snap: Offramp, w: Write): Refs {
    var refs := snap.refs;
    match w
    case CancelWrite => row.refs
    case FailWrite(next) => if next.Expired? then row.refs else refs
    case MarkSuccessWrite => refs.(markedManually := true)
    case MarkFailedWrite => refs.(markedManually := true)
    case FirstWrite(id) => refs.(palremitWithdrawalId := Some(id))
    case ReissueWrite(newId, oldId) => Refs(Some(newId), refs.superseded + [oldId], false)
    case _ => refs
  }

  /** `updateOfframpStatus` on the current row, with what the operation computed from its snapshot. */
  function ApplyWrite(row: Offramp, snap: Offramp, w: Write): Offramp {
    row.(status := OfframpStatusAfter(row, WriteStatus(snap, w), w.MarkFailedWrite?),
         timeline := WriteTimeline(row, snap, w), refs := WriteRefs(row, snap, w))
  }

  /**
   Single writes to the current offramp row that carry nothing over from an earlier read: the provider's older offramp.*
   events, and the platform-fee settlement's save.
   */
  datatype OffEvent =
    | CryptoReceivedEvent | CryptoConfirmedEvent | FeeProcessedEvent | FiatInitiatedEvent
    | CompletedEvent | FailedEvent | CancelledEvent | RefundedEvent
    | FeesSaved

  function EventStatus(e: OffEvent): OffStatus {
    match e
    case CryptoReceivedEvent => OffStatus.CryptoPending
    case CryptoConfirmedEvent => OffStatus.CryptoConfirmed
    case FeeProcessedEvent => OffStatus.FeeProcessed
    case FiatInitiatedEvent => OffStatus.FiatInitiated
    case CompletedEvent => OffStatus.Completed
    case FailedEvent => OffStatus.Failed
    case CancelledEvent => OffStatus.Cancelled
    case RefundedEvent => OffStatus.Refunded
    case FeesSaved => OffStatus.Completed
  }

  /** These events write a timeline that holds their own instant and nothing else. */
  predicate ReplacesTimeline(e: OffEvent) {
    e.CryptoReceivedEvent? || e.FiatInitiatedEvent? || e.CompletedEvent? || e.CancelledEvent?
  }

  function ApplyOffEvent(row: Offramp, e: OffEvent): Offramp {
    row.(status := OfframpStatusAfter(row, EventStatus(e), false),
         timeline := if ReplacesTimeline(e) then BlankTimeline else row.timeline)
  }

  function WithOff(s: State, off: nat, row: Offramp): State {
    s.(offs := s.offs[off := row])
  }

  /** The operation `pid` moves on to a new phase, or ends. */
  function PutOff(s: State, pid: nat, off: nat, phase: Option<OffPhase>): State {
    s.(offProcs := if phase.Some? then s.offProcs[pid := OffProc(off, phase.value)] else s.offProcs - {pid})
  }

  function StartOp(s: State, pid: nat, off: nat, op: OffOp): State
    requires off in s.offs && OpEnabled(s.offs[off], op)
  {
    PutOff(s, pid, off, Some(FirstPhase(s.offs[off], op)))
  }

  /** The operator's retry loads the payout's live state; `loads` says whether that read works. */
  function AfterLoad(ps: seq<Payout>, id: nat, loads: bool): Option<OffPhase> {
    match DecideRetry(Some(id), if loads then PayoutState(ps, id) else None)
    case Reissue(wid) => Some(Rereading(wid))
    case _ => None
  }

  function LoadLp(s: State, pid: nat, loads: bool): State
    requires pid in s.offProcs && s.offProcs[pid].phase.LoadingLp? && s.offProcs[pid].off in s.payouts
  {
    var proc := s.offProcs[pid];
    PutOff(s, pid, proc.off, AfterLoad(s.payouts[proc.off], proc.phase.withdrawalId, loads))
  }

  /** The reissue reads the row again and refuses unless it is still attached to that payout. */
  function Reread(s: State, pid: nat): State
    requires pid in s.offProcs && s.offProcs[pid].phase.Rereading? && s.offProcs[pid].off in s.offs
  {
    var proc := s.offProcs[pid];
    var row := s.offs[proc.off];
    PutOff(s, pid, proc.off,
      if CurrentPayout(row) == Some(proc.phase.withdrawalId) then Some(CallingReissue(row, proc.phase.withdrawalId)) else None)
  }

  predicate CallsLp(phase: OffPhase) {
    phase.CallingFirst? || phase.CallingReissue?
  }

  function CallKey(phase: OffPhase): PayoutKey
    requires CallsLp(phase)
  {
    if phase.CallingFirst? then FirstKey else ReissueKey(phase.withdrawalId)
  }

  /** The provider's payouts after a call: a refused call opens nothing. */
  function PayoutsAfterCall(ps: seq<Payout>, key: PayoutKey, freshId: nat, reply: Reply): (r: seq<Payout>)
    ensures reply.Accepted? ==> HasKey(r, key)
  {
    if reply.Rejected? then ps
    else
      var r := CreatePayout(ps, key, freshId);
      assert HasKey(r, key) by { if !HasKey(ps, key) { assert r[|ps|].key == key; } }
      r
  }

  /** What the operation does with the answer. */
  function AfterCall(phase: OffPhase, ps: seq<Payout>, reply: Reply): Option<OffPhase>
    requires CallsLp(phase) && (reply.Accepted? ==> HasKey(ps, CallKey(phase)))
  {
    match phase
    case CallingFirst(snap) =>
      Some(Writing(snap, if reply.Accepted? then FirstWrite(FindKey(ps, FirstKey)) else HandoffErrorWrite))
    case CallingReissue(snap, id) =>
      if reply.Accepted? then Some(Writing(snap, ReissueWrite(FindKey(ps, ReissueKey(id)), id))) else None
  }

  function CallLp(s: State, pid: nat, reply: Reply): State
    requires pid in s.offProcs && s.offProcs[pid].off in s.payouts && CallsLp(s.offProcs[pid].phase)
  {
    var proc := s.offProcs[pid];
    var ps := PayoutsAfterCall(s.payouts[proc.off], CallKey(proc.phase), s.nextId, reply);
    PutOff(s, pid, proc.off, AfterCall(proc.phase, ps, reply))
      .(payouts := s.payouts[proc.off := ps], nextId := s.nextId + 1)
  }

  function FinishOp(s: State, pid: nat): State
    requires pid in s.offProcs && s.offProcs[pid].phase.Writing? && s.offProcs[pid].off in s.offs
  {
    var proc := s.offProcs[pid];
    PutOff(s, pid, proc.off, None).(offs := s.offs[proc.off := ApplyWrite(s.offs[proc.off], proc.phase.snap, proc.phase.write)])
  }

  /** The provider moves a withdrawal; `failed` and `refunded` are final. */
  function MovePayout(s: State, off: nat, i: nat, next: LpState): State
    requires off in s.payouts && i < |s.payouts[off]|
  {
    s.(payouts := s.payouts[off := s.payouts[off][i := s.payouts[off][i].(state := next)]])
  }

  // ---------- the machine ----------

  datatype Step =
    | Advance(pid: nat, on: nat, now: int)         // the two steps below at once
    | ReadOn(pid: nat, on: nat)
    | LookStep(pid: nat, now: int)
    | ClaimStep(pid: nat)
    | CompleteStep(pid: nat)
    | InitiateStep(pid: nat)
    | SendStep(pid: nat, reply: Reply)
    | SentStep(pid: nat)
    | AbandonOn(pid: nat)                          // an advance throws between two awaits
    | WriteOn(on: nat, write: OnWrite)
    | WriteOff(off: nat, event: OffEvent)
    | Start(pid: nat, off: nat, op: OffOp)
    | Load(pid: nat, loads: bool)
    | RereadStep(pid: nat)
    | CallStep(pid: nat, reply: Reply)
    | Finish(pid: nat)
    | AbandonOff(pid: nat)
    | LpMove(off: nat, i: nat, next: LpState)

  predicate OnLive(s: State, pid: nat) {
    pid in s.onProcs && s.onProcs[pid].on in s.ons && s.onProcs[pid].on in s.crypto
  }

  predicate OffLive(s: State, pid: nat) {
    pid in s.offProcs && s.offProcs[pid].off in s.offs && s.offProcs[pid].off in s.payouts
  }

  predicate Enabled(s: State, step: Step) {
    match step
    case Advance(pid, on, _) => pid !in s.onProcs && on in s.ons && on in s.crypto
    case ReadOn(pid, on) => pid !in s.onProcs && on in s.ons && on in s.crypto
    case LookStep(pid, _) => OnLive(s, pid) && s.onProcs[pid].phase.Looking?
    case ClaimStep(pid) => OnLive(s, pid) && s.onProcs[pid].phase.Checked? && s.onProcs[pid].phase.off in s.offs
    case CompleteStep(pid) => OnLive(s, pid) && s.onProcs[pid].phase.Claimed?
    case InitiateStep(pid) => OnLive(s, pid) && s.onProcs[pid].phase.Sending?
    case SendStep(pid, _) => OnLive(s, pid) && s.onProcs[pid].phase.Calling?
    case SentStep(pid) => OnLive(s, pid) && s.onProcs[pid].phase.Answered?
    case AbandonOn(pid) => pid in s.onProcs
    case WriteOn(on, w) =>
      on in s.ons && on in s.crypto && OnWriteEnabled(w) && Truthful(s.crypto[on], w)
    case WriteOff(off, _) => off in s.offs
    case Start(pid, off, op) => pid !in s.offProcs && off in s.offs && off in s.payouts && OpEnabled(s.offs[off], op)
    case Load(pid, _) => OffLive(s, pid) && s.offProcs[pid].phase.LoadingLp?
    case RereadStep(pid) => OffLive(s, pid) && s.offProcs[pid].phase.Rereading?
    case CallStep(pid, _) => OffLive(s, pid) && CallsLp(s.offProcs[pid].phase)
    case Finish(pid) => OffLive(s, pid) && s.offProcs[pid].phase.Writing?
    case AbandonOff(pid) => pid in s.offProcs
    case LpMove(off, i, next) =>
      off in s.payouts && i < |s.payouts[off]| && !Reissueable(s.payouts[off][i].state)
  }

  function Apply(s: State, step: Step): State
    requires Enabled(s, step)
  {
    match step
    case Advance(pid, on, now) => BeginAdvance(s, pid, on, now)
    case ReadOn(pid, on) => ReadOnramp(s, pid, on)
    case LookStep(pid, now) => LookForMatch(s, pid, now)
    case ClaimStep(pid) => TryClaim(s, pid)
    case CompleteStep(pid) => CompleteInternally(s, pid)
    case InitiateStep(pid) => MarkInitiated(s, pid)
    case SendStep(pid, reply) => SendCrypto(s, pid, reply)
    case SentStep(pid) => MarkSent(s, pid)
    case AbandonOn(pid) => PutOn(s, pid, None)
    case WriteOn(on, w) => WithOn(s, on, ApplyOnWrite(s.ons[on], w))
    case WriteOff(off, e) => WithOff(s, off, ApplyOffEvent(s.offs[off], e))
    case Start(pid, off, op) => StartOp(s, pid, off, op)
    case Load(pid, loads) => LoadLp(s, pid, loads)
    case RereadStep(pid) => Reread(s, pid)
    case CallStep(pid, reply) => CallLp(s, pid, reply)
    case Finish(pid) => FinishOp(s, pid)
    case AbandonOff(pid) => PutOff(s, pid, s.offProcs[pid].off, None)
    case LpMove(off, i, next) => MovePayout(s, off, i, next)
  }

  /** A run: every step is enabled where it is taken. */
  predicate Legal(s: State, steps: seq<Step>)
    decreases |steps|
  {
    steps == [] || (Enabled(s, steps[0]) && Legal(Apply(s, steps[0]), steps[1..]))
  }

  function Exec(s: State, steps: seq<Step>): State
    requires Legal(s, steps)
    decreases |steps|
  {
    if steps == [] then s else Exec(Apply(s, steps[0]), steps[1..])
  }
}
