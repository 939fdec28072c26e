/**
 Settlement of a ramp's platform fee (core/ramps/settleRampPlatformFee.ts): queued when the ramp completes, paid out
 by the liquidity provider when an operator approves, finished by the provider's webhooks.
 */
module FeeSettlement {
  import opened Wrappers

  // ---------- the fee record ----------

  datatype RampKind = OnrampKind | OfframpKind

  datatype Asset = Usdt | Usdc

  /** A currency text as `parseStableFeeAsset` reads it. */
  datatype Currency = Blank | Stable(asset: Asset) | Unsupported

  datatype FeeStatus = Pending | Processing | Completed | Failed | Skipped

  datatype Note =
    | MissingTxnRef | MissingWallet | BadSettlementCurrency | BadFeeCurrency | NoSettlementCurrency | MissingNetwork
    | BadAmount | BelowMinimum | NetworkUnavailable | RequestFailed | WithdrawalFailed

  datatype Settlement = Settlement(status: FeeStatus, withdrawalId: Option<nat>, notes: seq<Note>)

  datatype Fee = Fee(
    amount: Option<real>, currency: Currency, wallet: string, settlementCurrency: Currency, network: string,
    settlement: Option<Settlement>)

  /** What a missing fee record is taken for. */
  const NoFee := Fee(Some(0.0), Stable(Usdc), "", Blank, "", None)

  datatype Row = Row(kind: RampKind, completed: bool, txnRef: string, fee: Option<Fee>)

  function SettlementOf(row: Row): Option<Settlement> {
    if row.fee.None? then None else row.fee.value.settlement
  }

  const USDT_PER_USDC := 1.02
  const MIN_SETTLEMENT_AMOUNT := 0.000001

  function ConvertUsdtUsdc(amount: real, src: Asset, dst: Asset): real {
    if amount <= 0.0 || src == dst then amount
    else if src.Usdt? then amount / USDT_PER_USDC
    else amount * USDT_PER_USDC
  }

  /** Converting there and back is the identity. */
  lemma ConversionRoundTrip(amount: real, src: Asset, dst: Asset)
    ensures ConvertUsdtUsdc(ConvertUsdtUsdc(amount, src, dst), dst, src) == amount
  {
  }

  /** One USDC is 1.02 USDT; nothing is converted at or below zero. */
  lemma ConversionExactly(amount: real, src: Asset, dst: Asset)
    ensures amount <= 0.0 || src == dst ==> ConvertUsdtUsdc(amount, src, dst) == amount
    ensures amount > 0.0 && src == Usdt && dst == Usdc ==> ConvertUsdtUsdc(amount, src, dst) * 1.02 == amount
    ensures amount > 0.0 && src == Usdc && dst == Usdt ==> ConvertUsdtUsdc(amount, src, dst) == amount * 1.02
  {
  }

  // ---------- validation ----------

  /** The provider's network for an asset, if it offers the requested one for withdrawals. */
  type Networks = Asset -> Option<string>

  datatype Check = Payable(asset: Asset, amount: real, network: string) | Unpayable(notes: seq<Note>)

  function NoteIf(bad: bool, note: Note): seq<Note> {
    if bad then [note] else []
  }

  /** What is wrong with the record itself. */
  function RecordNotes(row: Row): seq<Note> {
    var fee := if row.fee.Some? then row.fee.value else NoFee.(currency := Blank);
    NoteIf(row.txnRef == "", MissingTxnRef) + NoteIf(fee.wallet == "", MissingWallet) +
    NoteIf(fee.settlementCurrency.Unsupported?, BadSettlementCurrency) + NoteIf(fee.currency.Unsupported?, BadFeeCurrency) +
    NoteIf(!fee.settlementCurrency.Stable? && !fee.currency.Stable?, NoSettlementCurrency) +
    NoteIf(fee.network == "", MissingNetwork)
  }

  /** The asset a fee is paid in: the settlement currency, else the fee's own. */
  function PreferredAsset(fee: Fee): Asset
    requires fee.settlementCurrency.Stable? || fee.currency.Stable?
  {
    if fee.settlementCurrency.Stable? then fee.settlementCurrency.asset else fee.currency.asset
  }

  function AmountNotes(fee: Fee): seq<Note>
    requires fee.settlementCurrency.Stable? || fee.currency.Stable?
  {
    if fee.amount.None? || fee.amount.value <= 0.0 || !fee.currency.Stable? then [BadAmount]
    else NoteIf(ConvertUsdtUsdc(fee.amount.value, fee.currency.asset, PreferredAsset(fee)) < MIN_SETTLEMENT_AMOUNT, BelowMinimum)
  }

  function CheckFee(row: Row, networks: Networks): Check {
    if RecordNotes(row) != [] || row.fee.None? then Unpayable(RecordNotes(row))
    else
      var fee := row.fee.value;
      RecordIsUsable(row);
      if AmountNotes(fee) != [] then Unpayable(AmountNotes(fee))
      else
        var preferred, own := PreferredAsset(fee), fee.currency.asset;
        if networks(preferred).Some? then
          Payable(preferred, ConvertUsdtUsdc(fee.amount.value, own, preferred), networks(preferred).value)
        else if own != preferred && networks(own).Some? then Payable(own, fee.amount.value, networks(own).value)
        else Unpayable([NetworkUnavailable])
  }

  lemma RecordIsUsable(row: Row)
    requires RecordNotes(row) == []
    ensures row.fee.Some? && row.txnRef != "" && row.fee.value.wallet != "" && row.fee.value.network != ""
    ensures row.fee.value.settlementCurrency.Stable? || row.fee.value.currency.Stable?
    ensures !row.fee.value.settlementCurrency.Unsupported? && !row.fee.value.currency.Unsupported?
  {
  }

  method CollectRecordNotes(row: Row, fee: Fee) returns (notes: seq<Note>)
    requires fee == if row.fee.Some? then row.fee.value else NoFee.(currency := Blank)
    ensures notes == RecordNotes(row)
  {
    notes := NoteIf(row.txnRef == "", MissingTxnRef);
    notes := notes + NoteIf(fee.wallet == "", MissingWallet);
    notes := notes + NoteIf(fee.settlementCurrency.Unsupported?, BadSettlementCurrency);
    notes := notes + NoteIf(fee.currency.Unsupported?, BadFeeCurrency);
    notes := notes + NoteIf(!fee.settlementCurrency.Stable? && !fee.currency.Stable?, NoSettlementCurrency);
    notes := notes + NoteIf(fee.network == "", MissingNetwork);
  }

  /** `validatePlatformFeeSettlement`: notes accumulate, and the asset falls back to the fee's own. */
  method ValidateSettlement(row: Row, networks: Networks) returns (r: Check)
    ensures r == CheckFee(row, networks)
  {
    var fee := if row.fee.Some? then row.fee.value else NoFee.(currency := Blank);
    var notes := CollectRecordNotes(row, fee);
    if notes != [] { return Unpayable(notes); }
    RecordIsUsable(row);
    var settlementAsset := PreferredAsset(fee);
    var settlementAmount := 0.0;
    if fee.amount.None? || fee.amount.value <= 0.0 || !fee.currency.Stable? {
      notes := notes + [BadAmount];
    } else {
      settlementAmount := ConvertUsdtUsdc(fee.amount.value, fee.currency.asset, settlementAsset);
      if settlementAmount < MIN_SETTLEMENT_AMOUNT { notes := notes + [BelowMinimum]; }
    }
    assert notes == AmountNotes(fee);
    if notes != [] { return Unpayable(notes); }
    var resolved := networks(settlementAsset);
    if resolved.None? {
      if fee.currency.asset == settlementAsset { return Unpayable([NetworkUnavailable]); }
      resolved := networks(fee.currency.asset);
      if resolved.None? { return Unpayable([NetworkUnavailable]); }
      settlementAsset := fee.currency.asset;
      settlementAmount := fee.amount.value;
    }
    return Payable(settlementAsset, settlementAmount, resolved.value);
  }

  /** Each note on the record is there exactly for its own defect; a missing record lacks wallet, currency and network. */
  lemma RecordNotesExactly(row: Row, note: Note)
    ensures note in RecordNotes(row) <==>
              match row.fee
              case None => note in {MissingWallet, NoSettlementCurrency, MissingNetwork} || (note == MissingTxnRef && row.txnRef == "")
              case Some(fee) =>
                || (note == MissingTxnRef && row.txnRef == "") || (note == MissingWallet && fee.wallet == "")
                || (note == BadSettlementCurrency && fee.settlementCurrency == Unsupported)
                || (note == BadFeeCurrency && fee.currency == Unsupported)
                || (note == NoSettlementCurrency && !fee.settlementCurrency.Stable? && !fee.currency.Stable?)
                || (note == MissingNetwork && fee.network == "")
  {
  }

  /** Why a fee is refused: all defects of the record, else of its amount, else the networks. */
  lemma RefusalIsExact(row: Row, networks: Networks)
    ensures RecordNotes(row) != [] ==> CheckFee(row, networks) == Unpayable(RecordNotes(row))
    ensures RecordNotes(row) == [] ==>
              row.fee.Some? &&
              var fee, c := row.fee.value, CheckFee(row, networks);
              && (c == Unpayable([BadAmount]) <==> fee.amount.None? || fee.amount.value <= 0.0 || !fee.currency.Stable?)
              && (c == Unpayable([BelowMinimum]) <==> exists wanted: Asset :: Wanted(fee, wanted) && TooSmall(fee, wanted))
              && (c.Payable? || c == Unpayable([BadAmount]) || c == Unpayable([BelowMinimum]) || c == Unpayable([NetworkUnavailable]))
  {
    if RecordNotes(row) == [] {
      RecordIsUsable(row);
      var wanted := PreferredAsset(row.fee.value);
      assert forall asset: Asset :: Wanted(row.fee.value, asset) <==> asset == wanted;
      hide RecordNotes, Wanted, ConvertUsdtUsdc;
      assert CheckFee(row, networks) == Unpayable([BelowMinimum]) <==> TooSmall(row.fee.value, wanted);
    }
  }

  /** An amount above zero that is less than a millionth in the asset. */
  predicate TooSmall(fee: Fee, asset: Asset) {
    fee.amount.Some? && fee.amount.value > 0.0 && fee.currency.Stable? &&
    ConvertUsdtUsdc(fee.amount.value, fee.currency.asset, asset) < 0.000001
  }

  /** The settlement currency's asset if it is a stablecoin, else the fee's own. */
  predicate Wanted(fee: Fee, asset: Asset) {
    fee.settlementCurrency == Stable(asset) || (!fee.settlementCurrency.Stable? && fee.currency == Stable(asset))
  }

  /** The record names everything that a payment needs, and its amount, in the asset wanted, reaches the minimum. */
  predicate Complete(row: Row, wanted: Asset) {
    && row.fee.Some? && row.txnRef != "" && row.fee.value.wallet != "" && row.fee.value.network != ""
    && !row.fee.value.settlementCurrency.Unsupported? && row.fee.value.currency.Stable?
    && Wanted(row.fee.value, wanted)
    && row.fee.value.amount.Some? && row.fee.value.amount.value > 0.0
    && ConvertUsdtUsdc(row.fee.value.amount.value, row.fee.value.currency.asset, wanted) >= 0.000001
  }

  /**
   A fee passes exactly when the record is complete and the provider has the network for the asset wanted or for the fee's
   own. The asset paid is the one wanted if it has the network, else the fee's own; the amount is the stored fee converted.
   */
  lemma CheckIsExact(row: Row, networks: Networks)
    ensures CheckFee(row, networks).Payable? <==>
              exists wanted: Asset :: Complete(row, wanted) && (networks(wanted).Some? || networks(row.fee.value.currency.asset).Some?)
    ensures CheckFee(row, networks).Payable? ==>
              var c, fee := CheckFee(row, networks), row.fee.value;
              && fee.amount.Some? && fee.amount.value > 0.0 && fee.currency.Stable?
              && c.amount == ConvertUsdtUsdc(fee.amount.value, fee.currency.asset, c.asset)
              && networks(c.asset) == Some(c.network)
              && forall wanted: Asset :: Wanted(fee, wanted) ==> c.asset == if networks(wanted).Some? then wanted else fee.currency.asset
  {
    if row.fee.Some? && (row.fee.value.settlementCurrency.Stable? || row.fee.value.currency.Stable?) {
      var wanted := PreferredAsset(row.fee.value);
      assert forall asset: Asset :: Wanted(row.fee.value, asset) <==> asset == wanted;
      RecordPasses(row);
      hide RecordNotes, Wanted, ConvertUsdtUsdc;
      assert CheckFee(row, networks).Payable? <==>
               Complete(row, wanted) && (networks(wanted).Some? || networks(row.fee.value.currency.asset).Some?);
    }
  }

  lemma RecordPasses(row: Row)
    ensures RecordNotes(row) == [] <==>
              && row.fee.Some? && row.txnRef != "" && row.fee.value.wallet != "" && row.fee.value.network != ""
              && !row.fee.value.settlementCurrency.Unsupported? && !row.fee.value.currency.Unsupported?
              && (row.fee.value.settlementCurrency.Stable? || row.fee.value.currency.Stable?)
  {
  }

  /**
   The minimum is tested before the fallback only: the amount paid is below it exactly when a USDC fee that was to be
   paid in USDT falls back to USDC and the fee itself is below it, and then by no more than the conversion factor.
   */
  lemma MinimumIsTestedBeforeFallback(row: Row, networks: Networks)
    requires CheckFee(row, networks).Payable?
    ensures var c, fee := CheckFee(row, networks), row.fee.value;
            (c.amount < MIN_SETTLEMENT_AMOUNT <==>
               c.asset.Usdc? && c.asset != PreferredAsset(fee) && fee.amount.value < MIN_SETTLEMENT_AMOUNT) &&
            c.amount >= MIN_SETTLEMENT_AMOUNT / USDT_PER_USDC
  {
    CheckIsExact(row, networks);
  }

  // ---------- merging a settlement ----------

  /** The withdrawal id of a patch: left out, or set. */
  datatype Change = Keep | Put(id: nat)

  datatype Patch = Patch(status: FeeStatus, withdrawalId: Change, notes: seq<Note>)

  function Changed(before: Option<nat>, change: Change): Option<nat> {
    if change.Keep? then before else Some(change.id)
  }

  /** `mergePlatformFeeSettlement`: a retry of a failed settlement starts with fresh notes, anything else adds to them. */
  function MergedSettlement(before: Option<Settlement>, patch: Patch): Settlement {
    if before.None? then Settlement(patch.status, Changed(None, patch.withdrawalId), patch.notes)
    else
      var prev := before.value;
      var reset := prev.status.Failed? && (patch.status.Processing? || patch.status.Pending?);
      Settlement(patch.status, Changed(prev.withdrawalId, patch.withdrawalId), if reset then patch.notes else prev.notes + patch.notes)
  }

  /** A retry of a failed settlement starts with fresh notes; otherwise no note is lost. */
  lemma NotesAreKept(before: Settlement, patch: Patch)
    ensures before.status == Failed && (patch.status == Processing || patch.status == Pending) ==>
              MergedSettlement(Some(before), patch).notes == patch.notes
    ensures !(before.status == Failed && (patch.status == Processing || patch.status == Pending)) ==>
              MergedSettlement(Some(before), patch).notes == before.notes + patch.notes
  {
  }

  /** Saving the fees of an offramp also sets its status to completed; an onramp's status is left alone. */
  function SavedFee(row: Row, patch: Patch): Row {
    var fee := if row.fee.Some? then row.fee.value else NoFee;
    row.(fee := Some(fee.(settlement := Some(MergedSettlement(fee.settlement, patch)))),
         completed := row.completed || row.kind.OfframpKind?)
  }

  // ---------- the ramps and the provider ----------

  datatype LpState = LpPending | LpSuccessful | LpFailed

  /** A withdrawal at the provider, under its idempotency key. */
  datatype Withdrawal = Withdrawal(id: nat, asset: Asset, amount: real, state: LpState)

  datatype Key = Key(kind: RampKind, txnRef: string)

  datatype State = State(rows: map<nat, Row>, lp: map<Key, Withdrawal>, nextId: nat)

  function KeyOf(row: Row): Key {
    Key(row.kind, row.txnRef)
  }

  datatype Reply = Accepted | Rejected | Lost

  /** One attempt at the provider: the create call's reply, a move of the withdrawal meanwhile, the read by reference. */
  datatype Attempt = Attempt(reply: Reply, moved: Option<LpState>, readWorks: bool)

  /** The provider replays a known key with the withdrawal it already has. */
  function AfterCreate(s: State, key: Key, c: Check, reply: Reply): State
    requires c.Payable?
  {
    if reply.Rejected? || key in s.lp then s.(nextId := s.nextId + 1)
    else s.(lp := s.lp[key := Withdrawal(s.nextId, c.asset, c.amount, LpPending)], nextId := s.nextId + 1)
  }

  /** A withdrawal that has ended does not move again. */
  function Moved(s: State, key: Key, next: LpState): State {
    if key in s.lp && s.lp[key].state.LpPending? then s.(lp := s.lp[key := s.lp[key].(state := next)]) else s
  }

  /** What the source works with: the read's answer, else the create call's. */
  function Live(created: State, after: State, key: Key, attempt: Attempt): Option<Withdrawal>
    requires attempt.reply.Accepted? ==> key in created.lp
  {
    if attempt.readWorks && key in after.lp then Some(after.lp[key])
    else if attempt.reply.Accepted? then Some(created.lp[key])
    else None
  }

  function WithRow(s: State, id: nat, row: Row): State {
    s.(rows := s.rows[id := row])
  }

  // ---------- the operations ----------

  datatype Outcome = OutSkipped | OutPending | OutProcessing | AlreadySettled | AlreadyQueued | NotReady

  function Queue(s: State, id: nat, networks: Networks): (State, Outcome)
    requires id in s.rows
  {
    var row := s.rows[id];
    if !row.completed then (s, NotReady)
    else if SettlementOf(row).Some? then (s, if SettlementOf(row).value.status.Pending? then AlreadyQueued else AlreadySettled)
    else
      match CheckFee(row, networks)
      case Unpayable(notes) => (WithRow(s, id, SavedFee(row, Patch(Skipped, Keep, notes))), OutSkipped)
      case Payable(_, _, _) => (WithRow(s, id, SavedFee(row, Patch(Pending, Keep, []))), OutPending)
  }

  /** What an attempt leaves on the row. */
  function AttemptPatch(live: Option<Withdrawal>): Patch {
    if live.None? then Patch(Failed, Keep, [RequestFailed])
    else
      match live.value.state
      case LpSuccessful => Patch(Completed, Put(live.value.id), [])
      case LpFailed => Patch(Failed, Put(live.value.id), [WithdrawalFailed])
      case LpPending => Patch(Processing, Put(live.value.id), [])
  }

  function AttemptOutcome(live: Option<Withdrawal>): Outcome {
    if live.None? || live.value.state.LpFailed? then OutSkipped
    else if live.value.state.LpSuccessful? then AlreadySettled
    else OutProcessing
  }

  function Settle(s: State, id: nat, networks: Networks, attempt: Attempt): (State, Outcome)
    requires id in s.rows
  {
    var row := s.rows[id];
    if !row.completed then (s, NotReady)
    else if SettlementOf(row).None? then (s, NotReady)
    else if !SettlementOf(row).value.status.Pending? && !SettlementOf(row).value.status.Failed? then (s, AlreadySettled)
    else
      match CheckFee(row, networks)
      case Unpayable(notes) => (WithRow(s, id, SavedFee(row, Patch(Skipped, Keep, notes))), OutSkipped)
      case Payable(asset, amount, network) =>
        var created := AfterCreate(s, KeyOf(row), Payable(asset, amount, network), attempt.reply);
        var after := if attempt.moved.Some? then Moved(created, KeyOf(row), attempt.moved.value) else created;
        var live := Live(created, after, KeyOf(row), attempt);
        (WithRow(after, id, SavedFee(row, AttemptPatch(live))), AttemptOutcome(live))
  }

  /** A webhook is for the settlement if it is in flight or failed, and does not name another withdrawal. */
  predicate Applies(row: Row, withdrawalId: nat) {
    SettlementOf(row).Some? &&
    (SettlementOf(row).value.status.Processing? || SettlementOf(row).value.status.Failed?) &&
    SettlementOf(row).value.withdrawalId in {None, Some(withdrawalId)}
  }

  function WebhookPatch(withdrawalId: nat, succeeded: bool): Patch {
    if succeeded then Patch(Completed, Put(withdrawalId), [])
    else Patch(Failed, Put(withdrawalId), [WithdrawalFailed])
  }

  function DeliveredRow(row: Row, withdrawalId: nat, succeeded: bool): Row {
    if Applies(row, withdrawalId) then SavedFee(row, WebhookPatch(withdrawalId, succeeded)) else row
  }

  function Deliver(s: State, id: nat, withdrawalId: nat, succeeded: bool): State
    requires id in s.rows
  {
    WithRow(s, id, DeliveredRow(s.rows[id], withdrawalId, succeeded))
  }

  // ---------- what the operations leave ----------

  /** The row with this settlement on its fee record, a zero USDC fee if it had none; an offramp ends completed. */
  predicate Leaves(row: Row, r: Row, settlement: Settlement) {
    r.kind == row.kind && r.txnRef == row.txnRef && r.completed == (row.completed || row.kind == OfframpKind) && r.fee.Some? &&
    match row.fee
    case Some(fee) => r.fee.value == fee.(settlement := Some(settlement))
    case None => r.fee.value == Fee(Some(0.0), Stable(Usdc), "", Blank, "", Some(settlement))
  }

  /** A ramp is queued once, when it is completed: pending if its fee can be paid, skipped with the notes if not. */
  lemma QueueIsExact(s: State, id: nat, networks: Networks)
    requires id in s.rows
    ensures var (e, outcome) := Queue(s, id, networks);
            var row, st, c := s.rows[id], SettlementOf(s.rows[id]), CheckFee(s.rows[id], networks);
            e.lp == s.lp && e.rows.Keys == s.rows.Keys && (forall i :: i in s.rows && i != id ==> e.rows[i] == s.rows[i]) &&
            if !row.completed then e == s && outcome == NotReady
            else if st.Some? then e == s && outcome == if st.value.status == Pending then AlreadyQueued else AlreadySettled
            else if c.Payable? then outcome == OutPending && Leaves(row, e.rows[id], Settlement(Pending, None, []))
            else outcome == OutSkipped && Leaves(row, e.rows[id], Settlement(Skipped, None, c.notes))
  {
    hide CheckFee;
  }

  /** The state in which an approval sees the withdrawal under the ramp's key, if it sees one. */
  function Sees(before: Option<LpState>, attempt: Attempt): Option<LpState> {
    if before.None? && attempt.reply == Rejected then None
    else
      var called := if before.Some? then before.value else LpPending;
      var later := if called == LpPending && attempt.moved.Some? then attempt.moved.value else called;
      if attempt.readWorks then Some(later) else if attempt.reply == Accepted then Some(called) else None
  }

  function StateAt(s: State, key: Key): Option<LpState> {
    if key in s.lp then Some(s.lp[key].state) else None
  }

  /** An approval without effect: nothing to approve, or nothing left to do. */
  predicate NothingToApprove(row: Row, outcome: Outcome) {
    var st := SettlementOf(row);
    if row.completed && st.Some? then st.value.status in {Processing, Completed, Skipped} && outcome == AlreadySettled
    else outcome == NotReady
  }

  predicate Approvable(row: Row) {
    row.completed && SettlementOf(row).Some? && (SettlementOf(row).value.status == Pending || SettlementOf(row).value.status == Failed)
  }

  /** Nothing happens unless a settlement is pending or failed; an unpayable fee is skipped without a call. */
  lemma ApprovalIsGuarded(s: State, id: nat, networks: Networks, attempt: Attempt)
    requires id in s.rows
    ensures var (e, outcome) := Settle(s, id, networks, attempt);
            var row, c := s.rows[id], CheckFee(s.rows[id], networks);
            if !Approvable(row) then e == s && NothingToApprove(row, outcome)
            else c.Unpayable? ==>
                   var st := SettlementOf(row).value;
                   outcome == OutSkipped && e.lp == s.lp && id in e.rows &&
                   Leaves(row, e.rows[id], Settlement(Skipped, st.withdrawalId, st.notes + c.notes))
  {
    hide CheckFee;
  }

  /** What an approval makes of what it sees; a retry that is in flight again forgets its earlier notes. */
  predicate Reacts(row: Row, st: Settlement, seen: Option<LpState>, held: Option<nat>, outcome: Outcome, r: Row) {
    match seen
    case None => outcome == OutSkipped && Leaves(row, r, Settlement(Failed, st.withdrawalId, st.notes + [RequestFailed]))
    case Some(LpFailed) => outcome == OutSkipped && Leaves(row, r, Settlement(Failed, held, st.notes + [WithdrawalFailed]))
    case Some(LpSuccessful) => outcome == AlreadySettled && Leaves(row, r, Settlement(Completed, held, st.notes))
    case Some(LpPending) =>
      outcome == OutProcessing && Leaves(row, r, Settlement(Processing, held, if st.status == Failed then [] else st.notes))
  }

  /** The provider opens at most one withdrawal, under the ramp's key, for what the check allows. */
  ghost predicate Opens(s: State, e: State, key: Key, c: Check, reply: Reply) {
    (forall k :: k != key ==> (k in e.lp <==> k in s.lp) && (k in s.lp ==> e.lp[k] == s.lp[k])) &&
    if key in s.lp then key in e.lp && e.lp[key].(state := s.lp[key].state) == s.lp[key]
    else if reply == Rejected then key !in e.lp
    else c.Payable? && key in e.lp && e.lp[key].id == s.nextId && e.lp[key].asset == c.asset && e.lp[key].amount == c.amount
  }

  lemma AttemptReacts(row: Row, live: Option<Withdrawal>, held: Option<nat>)
    requires SettlementOf(row).Some? && (live.Some? ==> held == Some(live.value.id))
    ensures Reacts(row, SettlementOf(row).value, if live.Some? then Some(live.value.state) else None, held,
                   AttemptOutcome(live), SavedFee(row, AttemptPatch(live)))
  {
    var notes := SettlementOf(row).value.notes;
    assert notes + [] == notes;
  }

  lemma SeesLive(s: State, key: Key, c: Check, attempt: Attempt)
    requires c.Payable?
    ensures var created := AfterCreate(s, key, c, attempt.reply);
            var after := if attempt.moved.Some? then Moved(created, key, attempt.moved.value) else created;
            var live := Live(created, after, key, attempt);
            && Opens(s, after, key, c, attempt.reply) && after.rows == s.rows
            && Sees(StateAt(s, key), attempt) == (if live.Some? then Some(live.value.state) else None)
            && (live.Some? ==> key in after.lp && after.lp[key].id == live.value.id)
  {
  }

  lemma ApprovalIsExact(s: State, id: nat, networks: Networks, attempt: Attempt)
    requires id in s.rows && Approvable(s.rows[id]) && CheckFee(s.rows[id], networks).Payable?
    ensures var (e, outcome) := Settle(s, id, networks, attempt);
            var row := s.rows[id];
            && id in e.rows && Opens(s, e, KeyOf(row), CheckFee(row, networks), attempt.reply)
            && Reacts(row, SettlementOf(row).value, Sees(StateAt(s, KeyOf(row)), attempt),
                      if KeyOf(row) in e.lp then Some(e.lp[KeyOf(row)].id) else None, outcome, e.rows[id])
  {
    var row, c := s.rows[id], CheckFee(s.rows[id], networks);
    SeesLive(s, KeyOf(row), c, attempt);
    var created := AfterCreate(s, KeyOf(row), c, attempt.reply);
    var after := if attempt.moved.Some? then Moved(created, KeyOf(row), attempt.moved.value) else created;
    AttemptReacts(row, Live(created, after, KeyOf(row), attempt), if KeyOf(row) in after.lp then Some(after.lp[KeyOf(row)].id) else None);
    hide CheckFee, Live, AfterCreate, Moved, Sees, Reacts, AttemptPatch, AttemptOutcome, SavedFee;
  }

  /** A webhook changes exactly a settlement in flight or failed that names no other withdrawal. */
  lemma WebhookIsExact(row: Row, withdrawalId: nat, succeeded: bool)
    ensures var r, st := DeliveredRow(row, withdrawalId, succeeded), SettlementOf(row);
            if st.Some? && (st.value.status == Processing || st.value.status == Failed) &&
               (st.value.withdrawalId == None || st.value.withdrawalId == Some(withdrawalId))
            then Leaves(row, r, if succeeded then Settlement(Completed, Some(withdrawalId), st.value.notes)
                                else Settlement(Failed, Some(withdrawalId), st.value.notes + [WithdrawalFailed]))
            else r == row
  {
    if SettlementOf(row).Some? { assert SettlementOf(row).value.notes + [] == SettlementOf(row).value.notes; }
  }
}
