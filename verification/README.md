# Ramp settlement: a verified model

This project models the part of the ramp backend that moves money, in Dafny, and proves properties of it. Onramps turn
a customer's fiat into crypto, offramps turn crypto into fiat, and both work against an external liquidity provider.
The model has five parts.

1. **The transfer protocol** (`Ramps`, `DepositAmount`, `PairCheck`, `Transfer`, `TransferClaims`, `TransferPayouts`,
   `TransferRows`, `TransferFunds`, `TransferGaps`, `OlderEvents`, `RowWrites`, `Runs`, `Operations`, `Desk`). Onramp
   and offramp rows, the operations in flight on them and the provider's withdrawals form a state machine. An
   operation is split at its awaits, so a step is one read, one repository update or one provider call, and between
   two steps of an operation any other step may run; what an operation read earlier may be stale when it writes. A
   repository update is one step although its guard reads the row first, and `Advance` is a shorthand for an advance's
   two reads. `RowWrites` says what each single write leaves, `Runs` gives the state that each operation leaves when
   it runs alone, `Operations` folds any list of them, and `Desk` is the operations as the source runs them on stored
   rows.
2. **Platform-fee settlement** (`FeeSettlement`, `FeeRuns`): queue, approval, retry and webhooks over the stored fee
   record of any number of ramps, with the provider's withdrawals by idempotency key.
3. **Quote arithmetic** (`QuoteMath`, `OfframpQuote`, `OfframpPricing`, `OnrampQuote`, `OnrampPricing`, `DecimalCap`):
   forward and destination-fixed prices with every rounding, the solvency test, and the funding cap as a decimal string.
4. **Markup rules** (`PairMarkup`, `PairMarkupStore`): validation, storage and lookup of the FX markup, and the
   ticketed reload of the rules in memory.
5. **Small algorithms**: fee pages from two tables (`FeePages`), the bank-record walk (`BankResolve`), canonical JSON
   and the webhook key (`Json`, `StableJson`, `WebhookKey`), account creation under a unique column (`AccountCreate`),
   transaction references and idempotency keys (`TxnRef`). `Text` and `Wrappers` are shared.

Amounts are reals, `toFixed` and `Math.round` round to nearest with halves up, the explicit slack of 1e-9 in the
source's ceilings is kept, instants are integers. The provider replays the same withdrawal for a repeated idempotency
key, its failed and refunded states are final, and webhooks report its true state. What comes back from a call
(accepted, refused, accepted with the answer lost) is a parameter of the step, as are clocks and the network lists.

`dafny verify dfyconfig.toml` checks the whole project.

## Where the code does not keep the obvious promise

Each of these is a lemma with the run or the input, beside the exact condition under which the promise holds.

- An onramp can be settled internally and its crypto sent on-chain as well. Each run below starts from fresh rows and
  breaks one clause of `TransferClaims.CarefulOn`; respecting them all is enough (`TransferClaims.NeverSettledAndSent`).
  - Advances of one onramp overlap (`TransferGaps.OverlapHappens`).
  - An advance throws between its claim and the onramp's completion (`TransferGaps.AbandonedClaimIsReachable`).
  - A credit, an expiry or a provisioning webhook writes what it decided on a row read earlier
    (`TransferGaps.StaleWriteIsReachable`): two credits that overlap are enough.
  - An older `onramp.*` event reaches a settled onramp (`TransferGaps.LegacyFailureIsReachable`), a sent one
    (`TransferGaps.LegacyAfterSendIsReachable`), or one whose advance is in flight
    (`TransferGaps.LegacyDuringSendIsReachable`).
- An offramp can be claimed by two onramps. Each run breaks one clause of `TransferClaims.CarefulOff`, which is enough
  whatever happens to the onramps (`TransferClaims.ClaimedOnceAndComplete`).
  - A provisioning webhook puts back an offramp claimed meanwhile (`TransferGaps.StaleProvisioningIsReachable`).
  - The older `offramp.crypto_received` event reaches a claimed offramp (`OlderEvents.ReopeningIsReachable`); it is
    harmless exactly for offramps that nobody has claimed.
- Four of the older `offramp.*` events replace the timeline. That erases the evidence of received crypto
  (`OlderEvents.EventErasesExactly`), lets `offramp.failed` fail a credited offramp (`OlderEvents.CreditedOfframpFails`), and
  makes a handoff replay a payout that a reissue has superseded (`OlderEvents.ReplayIsReachable`).
- A provisioning webhook takes back the funded status of an onramp whose fiat is pending, and then it can expire
  (`TransferFunds.ProvisioningUnfundsExactly`).
- A write rebuilt from a stale snapshot can erase the evidence of received crypto (`TransferGaps.EvidenceErasedExactly`, as
  a run `TransferGaps.CancelRaceErasesCredit`), and the funds guard reads and writes in two statements
  (`TransferGaps.GuardGapExactly`, `TransferGaps.OnrampGuardGapExactly`). The comment on the guard promises a check on the
  current row; the machine takes it at that word, and the lemmas measure the gap.
- The claim tests only the status. Under `CarefulOff` that is enough, because a waiting offramp has no credit
  (`TransferFunds.ClaimOverwritesNoCredit`).
- An amount within a cent of the quoted deposit is a complete deposit for dollar stablecoins but can be short for other
  assets (`DepositAmount.WithinToleranceCanBeShort`).
- A fee settlement that ends `skipped` after a failed attempt can hide a payment (`FeeRuns.HiddenPaymentIsReachable`);
  a success webhook during an approval is lost (`FeeRuns.WebhookDuringApprovalIsLost`);
  a failed fee withdrawal can never be paid by a retry (`FeeRuns.DeadWithdrawalIsNeverPaid`); the minimum is not tested
  again after the network fallback (`FeeSettlement.MinimumIsTestedBeforeFallback`); a late fee webhook sets an offramp
  back to completed (`FeeRuns.FeeWebhookRevivesOfframpsOnly`).
- Destination-fixed quotes meet every destination exactly for percentages up to 0.999999, where the solver's cap is
  (`OfframpQuote.DestinationsAreMetExactly`, `OnrampQuote.DestinationsAreCreditedExactly`).
- Fee pages lose rows exactly when a page ends between two rows of one instant (`FeePages.FollowVisitsAllExactly`).
- The rules in memory can go back to an older table (`PairMarkupStore.MemoryCanGoBack`).
- Two calls with one request id can both create an account when the first row is deleted in between
  (`AccountCreate.RemadeHappens`), and a call can fail although its request id was never used by another payload
  (`AccountCreate.MissingHappens`).
- Two webhook deliveries share a key when a colon in one reference makes up for the other's id
  (`WebhookKey.ColonsCollideExactly`).
- An offramp whose instructions have no deadline can be past due by its rate's and still be paired
  (`Transfer.ExpiryAndPairingDifferExactly`).
- Canonical JSON loses a member named `__proto__` (`StableJson.ProtoMemberIsLost`).

## Model

| member | source | states |
|---|---|---|
| TransferClaims.NeverSettledAndSent | src/core/onramps/advanceOnrampPayout.ts:71-233 | in every run from fresh rows that respects `CarefulOn`, whatever happens to the offramps, no onramp is both settled internally and sent on-chain, the provider holds at most one crypto withdrawal per onramp, and an onramp settles into at most one offramp |
| TransferClaims.ClaimedOnceAndComplete | src/core/fiatToFiat/internalSettlement.ts:97-221 | in every run that respects `CarefulOff`, overlapping advances and every other step on onramps included, each offramp is claimed at most once, and by an onramp of the same business with the same address, asset, network and memo and both flows fiat-to-fiat, for that onramp's own amount, which is within 0.01 of the quoted deposit and passes the completeness test of on-chain stablecoin credits |
| TransferClaims.StepOnInv | src/core/onramps/advanceOnrampPayout.ts:71-233 | every step that respects `CarefulOn` keeps the invariant that ties onramp rows, advances in flight, settlements and withdrawals together |
| TransferClaims.StepClaimsInv | src/core/fiatToFiat/internalSettlement.ts:132-250 | every step that respects `CarefulOff` keeps the invariant of checks, claims and claimed offramps |
| TransferClaims.KeepsItsPlace | src/core/webhooks/processWebhookEvent.ts:562-821 | a single write to an onramp, fresh if it must be, takes no sent row out of the sending statuses and no ended or processed row back |
| TransferPayouts.AtMostOneLivePayout | src/core/offramps/reissueOfframpFiatPayout.ts:60-175 | in every interleaving an offramp's payouts are one chain without repetition, each reissuing the one before, and two different ones are never both live |
| TransferPayouts.SuccessorOrLast | src/core/offramps/offrampFiatRetry.ts:79-120 | a dead payout already has its reissue or is the chain's last, so a reissue replays or extends the chain and never forks it |
| TransferPayouts.CreateKeepsChain | src/core/integrations/palremitOfframp.ts:411-437 | a keyed create call, new or replayed, keeps the chain and every dead payout dead |
| TransferRows.RowListsItsChain | src/core/offramps/reissueOfframpFiatPayout.ts:132-167 | with operations on each offramp serialised and timeline-replacing events kept to rows without credit and payout, the superseded ids and then the current id are the chain without repetition, up to one unwritten last payout; exactly the chain on an idle row when no answer is lost |
| TransferRows.EvidenceIsNeverErased | src/core/ramps/fundsReceivedGuard.ts:51-60 | under the same conditions no continuation of a run erases the evidence that crypto arrived |
| TransferRows.ReissueCall | src/core/admin/dashboard.ts:883-944 | a reissue of the row's current payout gets the chain's next payout, whether the provider opens it or replays it |
| TransferRows.WriteKeepsRow | src/core/offramps/advanceOfframpPayout.ts:128-169 | a serialised write leaves the row well-formed, listing the payout it writes, and keeps its evidence |
| TransferRows.EventKeepsRow | src/core/webhooks/processWebhookEvent.ts:1137-1238 | an older event does too, on a row without credit and payout if it replaces the timeline |
| TransferFunds.FundedNeverFails | src/core/ramps/fundsReceivedGuard.ts:66-75 | in every state, every step that is no operator override leaves a funded ramp out of the automatic failure statuses, however stale the row it had read |
| TransferFunds.CreditedOfframpNeverFails | src/core/ramps/fundsReceivedGuard.ts:51-75 | once such a run has credited crypto to an offramp that has not failed, no continuation of the kind without an operator override ever expires or fails it |
| TransferFunds.OverrideExactly | src/core/admin/dashboard.ts:500-516 | the operator's failure mark is the only override |
| TransferFunds.AutomaticFailureIsExact | src/db/repositories/offramp.repo.ts:149-212 | an automatic failure, the older failure event included, takes effect exactly on rows without funds |
| TransferFunds.ProvisioningUnfundsExactly | src/core/webhooks/processWebhookEvent.ts:805-821 | a provisioning webhook on a funded onramp lets an expiry go through afterwards exactly when it reports the account active |
| TransferFunds.ClaimOverwritesNoCredit | src/db/repositories/offramp.repo.ts:235-258 | in every run that respects `CarefulOff` a claim that wins finds no credited crypto on the row whose timeline it replaces |
| TransferGaps.OverlappingAdvancesPayTwice | src/core/fiatToFiat/internalSettlement.ts:215-221 | two advances of one onramp that checked the same offramp end settled and sent |
| TransferGaps.OverlapIsReachable | src/core/onramps/advanceOnrampPayout.ts:77-91 | and such a run starts from fresh rows: any onramp whose fiat lands while exactly one offramp pairs with it |
| TransferGaps.OverlapHappens | src/core/onramps/advanceOnrampPayout.ts:77-91 | such rows exist for every open deposit, and from them the crypto is paid twice |
| TransferGaps.PairedStateIsReady | src/core/fiatToFiat/internalSettlement.ts:97-126 | for every open deposit and any number of onramps there are fresh rows from which every run named reachable starts |
| TransferGaps.AbandonedClaimPaysTwice | src/core/fiatToFiat/internalSettlement.ts:223-250 | an advance that throws after winning its claim is followed by an on-chain send |
| TransferGaps.AbandonedClaimIsReachable | src/core/fiatToFiat/internalSettlement.ts:215-250 | the run from fresh rows |
| TransferGaps.LegacyFailurePaysTwice | src/core/webhooks/processWebhookEvent.ts:1087-1133 | the provider's older failure event reopens a settled onramp, which is then sent |
| TransferGaps.LegacyFailureIsReachable | src/core/webhooks/processWebhookEvent.ts:1121-1133 | the run from fresh rows |
| TransferGaps.LegacyDuringSendIsReachable | src/core/webhooks/processWebhookEvent.ts:1087-1107 | an older event during a send, on an onramp neither settled nor sent, ends settled and sent: the run from fresh rows |
| TransferGaps.LegacyAfterSendIsReachable | src/core/webhooks/processWebhookEvent.ts:1087-1107 | and so does an older event on an idle onramp that has been sent |
| TransferGaps.StaleWritePaysTwice | src/core/webhooks/processWebhookEvent.ts:400-432 | a single write that reopens a settled onramp is followed, step by careful step, by an on-chain send |
| TransferGaps.StaleWriteReopensExactly | src/core/webhooks/processWebhookEvent.ts:400-1133 | the single writes that reopen a settled onramp are exactly credits, expiries and provisioning webhooks, which `CarefulOn` wants fresh, and the older events but the completed one |
| TransferGaps.StaleWriteIsReachable | src/core/admin/dashboard.ts:549-588 | the run from fresh rows, for each credit, expiry and provisioning webhook that read the fresh row |
| TransferGaps.StaleProvisioningClaimsTwice | src/core/webhooks/processWebhookEvent.ts:836-877 | a provisioning webhook with a stale row lets a second onramp claim a claimed offramp |
| TransferGaps.StaleProvisioningIsReachable | src/core/webhooks/processWebhookEvent.ts:836-877 | the run from fresh rows: both onramps end settled into one offramp |
| TransferGaps.CancelRaceErasesCredit | src/core/offramps/cancelOfframp.ts:93-123 | from fresh rows, a cancel that read before a credit and writes after it leaves no evidence of the credit |
| TransferGaps.EvidenceErasedExactly | src/core/offramps/cancelOfframp.ts:93-123 | a write erases the evidence of received crypto exactly when it rebuilds the timeline from a snapshot that had none |
| TransferGaps.GuardGapExactly | src/db/repositories/offramp.repo.ts:164-206 | an automatic failure passes between the guard's read and the write exactly when that read saw no funds, or a failed row |
| TransferGaps.OnrampGuardGapExactly | src/db/repositories/onramp.repo.ts:127-165 | the same for onramps, exactly when that read saw no funds |
| OlderEvents.ReopeningIsSafeExactly | src/core/webhooks/processWebhookEvent.ts:1139-1153 | the crypto-received event keeps the claims invariant if and only if no onramp has claimed the offramp |
| OlderEvents.ReopeningForgetsCredits | src/core/webhooks/processWebhookEvent.ts:1139-1153 | after that event the row pairs like a fresh one, whatever was credited |
| OlderEvents.ReopeningIsReachable | src/core/webhooks/processWebhookEvent.ts:1139-1153 | from fresh rows, two onramps that pay into one deposit are both settled into it |
| OlderEvents.EventErasesExactly | src/db/repositories/offramp.repo.ts:190-206 | an older event erases the evidence of received crypto exactly when it replaces the timeline |
| OlderEvents.FailsAfterExactly | src/core/webhooks/processWebhookEvent.ts:1183-1221 | the failure event fails a credited row exactly after the completed and the cancelled event |
| OlderEvents.CreditedOfframpFails | src/core/webhooks/processWebhookEvent.ts:1183-1209 | from fresh rows, without an operator override: every condition of `CreditedOfframpNeverFails` but the serial one |
| OlderEvents.HandsOffAgainExactly | src/core/webhooks/processWebhookEvent.ts:1154-1182 | a paid-out row is handed off again after the confirmed event exactly when its timeline was replaced and it is payable |
| OlderEvents.ReplayIsReachable | src/core/webhooks/processWebhookEvent.ts:1154-1182 | from fresh rows, the first payout, failed and superseded, becomes the current one again and is listed twice |
| Runs.AdvanceRuns | src/core/onramps/advanceOnrampPayout.ts:71-143 | a whole advance, settled or sent, is a careful, serialised run of the machine to the state given |
| Runs.HandoffRuns | src/core/offramps/advanceOfframpPayout.ts:51-169 | a whole fiat handoff is such a run |
| Runs.RetryRuns | src/core/admin/dashboard.ts:857-944 | a whole operator retry, with the provider's state loaded and the row read again, is such a run |
| Runs.WriteRuns | src/core/offramps/cancelOfframp.ts:93-123 | an operation of one read and one write is such a run |
| Runs.HandoffLeaves | src/core/offramps/advanceOfframpPayout.ts:51-169 | what a handoff leaves of the row and of the provider's payouts, field by field: nothing new unless the crypto is confirmed and no payout recorded, else one call under the first key, a replay if it is known, and the answer on the row if there is one |
| Runs.CreditLeaves | src/core/webhooks/processWebhookEvent.ts:469-523 | what a credit leaves: the total on the row, and the handoff exactly when the total covers the quoted deposit |
| Runs.RetryLeaves | src/core/offramps/reissueOfframpFiatPayout.ts:60-175 | what a retry leaves: a reissue exactly when the provider reports the payout failed or refunded, with the old payout appended to the superseded ones, else nothing |
| Runs.AdvanceLeaves | src/core/onramps/advanceOnrampPayout.ts:71-143 | which of the three an advance does: it settles into the only offramp the onramp pays, else sends if the row allows it, else nothing |
| Transfer.CandidatesExactly | src/core/fiatToFiat/internalSettlement.ts:137-152 | the offramps looked at: the one that the onramp names, else the business's own waiting ones at the address paid |
| Runs.SettlesIntoExactly | src/core/fiatToFiat/internalSettlement.ts:140-177 | an advance settles into an offramp exactly when it is the only one the onramp pays |
| Runs.SettleLeaves | src/core/fiatToFiat/internalSettlement.ts:195-250 | what a settlement leaves: the onramp completed without receipt, the offramp confirmed and credited by it |
| Runs.SendLeaves | src/core/onramps/advanceOnrampPayout.ts:101-233 | what a send leaves: at most one withdrawal, and the onramp waiting for it with its id if the answer came |
| Runs.SendsExactly | src/core/onramps/advanceOnrampPayout.ts:92-116 | from which rows the crypto may be sent |
| RowWrites.GuardsExactly | src/core/webhooks/processWebhookEvent.ts:448-877 | each operation on an offramp begins exactly on the rows it is for |
| RowWrites.WriteLeaves | src/core/webhooks/processWebhookEvent.ts:448-877 | what each single write leaves of an offramp, field by field: what was rebuilt from the row read earlier, what stays as it is, and no automatic failure of a funded row |
| RowWrites.EventLeaves | src/core/webhooks/processWebhookEvent.ts:1137-1238 | the same for the provider's older events |
| RowWrites.OnWriteLeaves | src/core/webhooks/processWebhookEvent.ts:400-1133 | the same for single writes to an onramp, and from which statuses they are made |
| RowWrites.ClaimLeaves | src/core/fiatToFiat/internalSettlement.ts:195-221 | a claim is won exactly while the status is settleable, and then puts the credit into the timeline and refs of the row checked before; lost, it changes nothing and the advance sends if the row it read allows that |
| RowWrites.AdvanceStepLeaves | src/core/onramps/advanceOnrampPayout.ts:145-233 | what the other steps of an advance write to the onramp, whatever became of it meanwhile |
| RowWrites.LoadLeaves | src/core/offramps/offrampFiatRetry.ts:79-120 | a retry in flight goes on exactly when the provider reports the payout failed or refunded |
| RowWrites.RereadLeaves | src/core/offramps/reissueOfframpFiatPayout.ts:60-110 | and calls the provider exactly when the row, read again, is still attached to that payout |
| RowWrites.GuardExactly | src/core/ramps/fundsReceivedGuard.ts:23-75 | the guard of every update refuses exactly an automatic failure of a row with funds that no operator insists on |
| RowWrites.OnrampGuardExactly | src/core/ramps/fundsReceivedGuard.ts:23-75 | the same for onramps |
| RowWrites.CoveredAmount | src/core/offramps/offrampDepositAmount.ts:84-98 | a row that a credit confirms has received more than the quoted deposit less a dollar, or less a cent |
| Operations.OperationRuns | src/core/admin/dashboard.ts:418-531 | every whole operation (advance, handoff, routed retry, credit, any single write, provider move) is a careful, serialised run of the machine to the state it leaves |
| Operations.PerformKeepsSound | src/core/admin/dashboard.ts:418-531 | one operation keeps the claims invariant, the payout chains and the rows' record of them |
| Operations.OperationsAreSafe | src/core/admin/dashboard.ts:418-531 | after any list of whole operations from fresh rows every onramp's crypto is paid once and every offramp's row lists its one chain of payouts, at most one of them live; older events only where they are safe |
| Operations.WithoutOlderEventsAllowed | src/core/webhooks/processWebhookEvent.ts:1087-1238 | for lists without the older events there is no condition at all |
| Operations.AnsweredOperationsListAll | src/core/offramps/reissueOfframpFiatPayout.ts:132-167 | when no answer is lost every row then lists exactly its payouts |
| Operations.OperationsKeepEvidence | src/core/ramps/fundsReceivedGuard.ts:51-60 | no further operations take the evidence of received crypto back |
| Operations.ReachedIsSafe | src/core/admin/dashboard.ts:418-531 | so the stored rows, which the methods of `Desk` keep in such a state, have all of that |
| Desk.Desk.AdvanceOnrampIfFiatProcessed | src/core/onramps/advanceOnrampPayout.ts:71-233 | the method leaves the state of the whole advance, and stored rows that whole operations can reach stay such rows |
| Desk.Desk.TrySettleInternally | src/core/fiatToFiat/internalSettlement.ts:132-250 | it settles exactly when one and only one offramp is paid by the onramp (`Runs.PaysOnly`: named by it or at its address, and fitting it), for the onramp's own amount, and then leaves the settled and handed-off state; otherwise nothing changes |
| Desk.Desk.CollectMatches | src/core/fiatToFiat/internalSettlement.ts:154-160 | the scan lists the candidates that pass the pairing check, in order, and gives every other one a reason |
| Desk.SoleMatchIsTheMatch | src/core/fiatToFiat/internalSettlement.ts:161-177 | for candidates listed once each in any order, the scan ends with a single match exactly when one offramp pairs |
| Desk.Desk.ClaimOfframpCrypto | src/db/repositories/offramp.repo.ts:235-258 | the conditional update funds the row exactly when its status is still settleable |
| Desk.Desk.SendOnChain | src/core/onramps/advanceOnrampPayout.ts:101-233 | the on-chain branch marks, calls under the onramp's key and records the answer |
| Desk.Desk.AdvanceOfframpIfDepositReady | src/core/offramps/advanceOfframpPayout.ts:51-169 | the method leaves the state of the handoff, and nothing changes unless the row is confirmed, unpaid and payable |
| Desk.Desk.RetryOfframpFiatPayout | src/core/offramps/retryOfframpFiatPayout.ts:32-129 | a retry hands off exactly the business's own row without a payout, and is idempotent on a row that has one |
| Desk.Desk.ReissueOfframpFiatPayout | src/core/offramps/reissueOfframpFiatPayout.ts:60-175 | a reissue happens only on the payout the row is attached to; the new one becomes current and the old one superseded, exactly when the provider accepts |
| Desk.Desk.RetryOfframpFiatPayoutAdmin | src/core/admin/dashboard.ts:857-996 | on a row with a payout it reissues exactly when the payout loads as failed or refunded and the provider accepts, and then the old payout is listed as superseded and the new one current; each rejection code exactly for its own state of the payout, and nothing changes; without a payout it is the handoff |
| Desk.Desk.CancelOfframp | src/core/offramps/cancelOfframp.ts:93-123 | a cancel goes through exactly before any crypto was seen |
| Desk.Desk.CreditDeposit | src/core/webhooks/processWebhookEvent.ts:448-523 | credits add up on the row, which ends confirmed and is handed off exactly when they cover the quoted deposit: less than a dollar short for dollar stablecoins, not short for any other asset, in cents; any less leaves it received and the provider alone; reached rows stay reached |
| Desk.Desk.ExpireStaleOfframps | src/core/ramps/depositExpiry.ts:124-144 | the sweep leaves the swept rows and counts those it tried |
| Desk.SweepExpiresExactly | src/core/ramps/depositExpiry.ts:90-105 | the sweep expires exactly the rows listed as due that hold no funds when it reaches them, and touches nothing else |
| Desk.DueExactly | src/core/ramps/depositExpiry.ts:18-53 | it tries exactly the rows that were listed as waiting past the deadline of their instructions, or of their rate if they have none |
| Transfer.ExpiryAndPairingDifferExactly | src/core/ramps/depositExpiry.ts:18-53 | an offramp is past due and its pairing window open exactly when only its rate gives a deadline, which has passed |
| PairCheck.PairsExactly | src/core/fiatToFiat/internalSettlement.ts:97-126 | a pair exactly when one business pays with a fiat-to-fiat onramp into the address, asset, network and memo that its fiat-to-fiat offramp awaits, the offramp waits without credits inside its window, and the amount, which is the onramp's, is within 0.01 of the quoted deposit |
| PairCheck.ReasonIsTheFirst | src/core/fiatToFiat/internalSettlement.ts:97-126 | the reason given is the first that holds of the two rows, in the order of the tests |
| PairCheck.SameAddressExactly | src/core/fiatToFiat/internalSettlement.ts:84-92 | two addresses are the same exactly when they are equal and not blank, or Ethereum addresses that differ in letter case only |
| PairCheck.LinksExactly | src/core/fiatToFiat/offrampLink.ts:81-141 | a link is given exactly when the onramp it would create fits the business's own offramp now, a wallet that was also sent is the deposit address, and no other onramp is live; each error exactly otherwise |
| PairCheck.LinkedOnrampStaysSettleable | src/core/fiatToFiat/offrampLink.ts:81-141 | an onramp accepted with a link passes the pairing check against the unchanged offramp at a later instant if and only if its deposit window is still open |
| PairCheck.LinkedFieldsReadBack | src/core/onramps/createOnramp.ts:613-625 | what a linked create stores reads back as the offramp's own address, memo and reference |
| DepositAmount.CompleteExactly | src/core/offramps/offrampDepositAmount.ts:84-98 | a deposit is complete exactly when the rounded amount received is above the rounded amount expected less a dollar, for USDT, USDC and USD, and at least the rounded amount expected for any other asset |
| DepositAmount.CompleteBounds | src/core/offramps/offrampDepositAmount.ts:17-27 | so nothing short by a dollar (a cent) or more is complete, and everything short by no more than 0.99 (nothing) is |
| DepositAmount.ExpectedExactly | src/core/offramps/offrampDepositAmount.ts:43-71 | the quoted deposit is the first of the two amounts that is above zero |
| DepositAmount.WithinToleranceIsComplete | src/core/offramps/offrampDepositAmount.ts:84-98 | the pairing tolerance is tighter than the completeness test for dollar stablecoins |
| DepositAmount.WithinToleranceCanBeShort | src/core/offramps/offrampDepositAmount.ts:13-27 | for an asset without a tolerance the two tests differ |
| FeeRuns.FeesArePaidOnceAndRight | src/core/ramps/settleRampPlatformFee.ts:343-465 | in every run each fee withdrawal belongs to exactly one ramp, has an id of its own and pays the stored fee converted to the asset; completed means the withdrawal succeeded |
| FeeRuns.FinalIsKept | src/core/ramps/settleRampPlatformFee.ts:173-180 | completed and skipped settlements are never left and never cause a provider call |
| FeeRuns.WebhooksConverge | src/core/ramps/settleRampPlatformFee.ts:477-515 | webhooks of one withdrawal in any order and number end completed exactly when a success is among them, else failed |
| FeeRuns.SkippedHasWithdrawalExactly | src/core/ramps/settleRampPlatformFee.ts:371-379 | an approval that ends skipped leaves a withdrawal exactly when there was one before, never from pending |
| FeeRuns.SkippedCanHideAPayment | src/core/ramps/settleRampPlatformFee.ts:398-407 | a lost answer, then a skipped retry, hides a payment whose success webhook is ignored |
| FeeRuns.HiddenPaymentIsReachable | src/core/ramps/settleRampPlatformFee.ts:398-407 | the run from unqueued rows, for every completed ramp with a payable fee |
| FeeRuns.ApprovalSplits | src/core/ramps/settleRampPlatformFee.ts:390-464 | the call and the save of an approval, with nothing in between, are the approval |
| FeeRuns.WebhookDuringApprovalIsLost | src/core/ramps/settleRampPlatformFee.ts:477-515 | a success reported between the two leaves the settlement in processing, out of reach of every approval, until the webhook is delivered again |
| FeeRuns.DeadWithdrawalIsNeverPaid | src/core/ramps/settleRampPlatformFee.ts:381-397 | once the provider's withdrawal failed, no approval opens another one or completes the settlement |
| FeeRuns.FeeWebhookRevivesOfframpsOnly | src/core/offramps/settleOfframpPlatformFee.ts:43-49 | a fee webhook sets a ramp that is not completed to completed exactly when it is an offramp and the webhook applies |
| FeeRuns.RevivedIsReachable | src/core/offramps/settleOfframpPlatformFee.ts:43-49 | the run from fresh rows |
| FeeRuns.FreshRowsBegin | src/core/ramps/settleRampPlatformFee.ts:299-340 | rows with distinct references and nothing queued are a beginning of such runs |
| FeeRuns.FeeDesk.QueueSettlement | src/core/ramps/settleRampPlatformFee.ts:299-340 | queueing, as one method on the stored rows |
| FeeRuns.FeeDesk.SettleFee | src/core/ramps/settleRampPlatformFee.ts:343-465 | approval, as one method on the stored rows and the provider |
| FeeRuns.FeeDesk.ApplyWebhook | src/core/ramps/settleRampPlatformFee.ts:477-515 | the webhook, applied exactly to a settlement in flight or failed that names no other withdrawal |
| FeeSettlement.ValidateSettlement | src/core/ramps/settleRampPlatformFee.ts:182-269 | the accumulating validation computes the check that `CheckIsExact` characterises |
| FeeSettlement.CheckIsExact | src/core/ramps/settleRampPlatformFee.ts:182-269 | a fee passes exactly when its record is complete, its amount, converted to the asset wanted, reaches a millionth, and the network exists for that asset or the fee's own; the settlement currency, if stable and its network exists, is the asset paid, else the fee's own; the amount is the stored fee converted |
| FeeSettlement.RecordNotesExactly | src/core/ramps/settleRampPlatformFee.ts:182-225 | each note on the record is there exactly for its own defect |
| FeeSettlement.RefusalIsExact | src/core/ramps/settleRampPlatformFee.ts:182-269 | why a fee is refused: all defects of the record, else of its amount, else the networks |
| FeeSettlement.ConversionExactly | src/core/offramps/stablecoinFee.ts:16-21 | one USDC is 1.02 USDT |
| FeeSettlement.QueueIsExact | src/core/ramps/settleRampPlatformFee.ts:299-340 | a completed ramp is queued once, pending or skipped with its notes |
| FeeSettlement.ApprovalIsGuarded | src/core/ramps/settleRampPlatformFee.ts:343-379 | an approval does nothing unless the settlement is pending or failed, and skips an unpayable fee without a call |
| FeeSettlement.ApprovalIsExact | src/core/ramps/settleRampPlatformFee.ts:381-465 | the provider opens at most one withdrawal, for what the check allows; the settlement follows the state in which the approval sees it, and a retry that is in flight again forgets its earlier notes |
| FeeSettlement.WebhookIsExact | src/core/ramps/settleRampPlatformFee.ts:477-515 | a webhook changes exactly a settlement in flight or failed that names no other withdrawal |
| FeeSettlement.MinimumIsTestedBeforeFallback | src/core/ramps/settleRampPlatformFee.ts:227-257 | the amount paid is below the minimum exactly for a small USDC fee that falls back from USDT, and by no more than the factor 1.02 |
| FeeSettlement.ConversionRoundTrip | src/core/offramps/stablecoinFee.ts:16-21 | converting between USDT and USDC and back is the identity |
| FeePages.FollowVisitsAllExactly | src/core/admin/dashboard.ts:721-768 | following the cursor visits every row of both tables exactly once, newest first, if and only if no page ends between two rows of one instant |
| FeePages.DistinctInstantsAreAllVisited | src/core/admin/dashboard.ts:734-768 | in particular when all instants differ |
| FeePages.PageOfMerge | src/core/admin/dashboard.ts:721-732 | a page of the two tables is a page of the merged table, with a cursor exactly when rows remain |
| FeePages.SortMerges | src/core/admin/dashboard.ts:725-727 | sorting two sorted pages put together is merging them |
| OfframpQuote.DestinationIsMet | src/core/quotes/computeOfframpQuoteAmounts.ts:72-108 | the solved send, quoted forward, yields a receive in [D - r*1e-17, D + r*1e-8) for flat fees and percentages up to 0.999999; what the fees take of that send is `OfframpQuote.SolvedSplits` |
| OfframpQuote.DestinationsAreMetExactly | src/core/quotes/computeOfframpQuoteAmounts.ts:95-98 | every destination meets that lower bound if and only if the percentage is at most 0.999999 |
| OfframpQuote.SolverAgreesWithForward | src/core/quotes/computeOfframpQuoteAmounts.ts:99-107 | the solver's net send and fee are the forward quote's, for every fee |
| OfframpQuote.SolvedSendIsWhole | src/core/quotes/computeOfframpQuoteAmounts.ts:62-66 | the solved send is a whole number of 8-decimal units |
| OfframpQuote.ForwardSplits | src/core/quotes/computeOfframpQuoteAmounts.ts:27-51 | the send is the net send and both fees, if it covers them, and nothing is left otherwise; a missing or negative transfer fee takes nothing |
| OfframpQuote.SolvedSplits | src/core/quotes/computeOfframpQuoteAmounts.ts:99-107 | so is the solved send |
| QuoteMath.FeeOfGross | src/core/payments/applyOfframpPlatformFee.ts:22-39 | the solver's gross amount inverts the fee: an error of the gross shows in the net times the fee's slope |
| QuoteMath.CeilToBounds | src/core/quotes/computeOfframpQuoteAmounts.ts:62-66 | the ceiling moves up by less than one unit and down by no more than its slack |
| QuoteMath.FeeIsCharged | src/core/payments/applyOfframpPlatformFee.ts:22-39 | the platform fee is the flat amount above zero, or the share of the gross amount between none and all of it, and the rest is left |
| QuoteMath.RoundToBounds | src/core/quotes/roundPayoutFiatAmount.ts:15-20 | rounding goes to the nearest minor unit, halves up |
| QuoteMath.WithoutMinorUnits | src/core/quotes/roundPayoutFiatAmount.ts:6-13 | the payout currencies without minor units |
| OfframpPricing.PriceOfframpQuote | src/core/quotes/createOfframpQuote.ts:145-314 | the step-by-step pricing computes the price that `PriceExactly`, `SettledExactly` and the solvency lemmas are about |
| OfframpPricing.PriceExactly | src/core/quotes/createOfframpQuote.ts:145-258 | which requests are refused before the amounts are computed, each refusal exactly for its own reason in order, and the rate's own outcome otherwise |
| OfframpPricing.FinalRateExactly | src/core/quotes/createOfframpQuote.ts:175-258 | the rate is the business's own, floored at the executable one, or with a pair's rule the floored market rate marked down for a sale and up otherwise; it is refused exactly when the service has not answered or a rule meets no executable rate |
| OfframpPricing.SettledExactly | src/core/quotes/createOfframpQuote.ts:259-314 | from the rate on: which refusal, or which quote with which funding cap (at least the net send, and the provider's amount with a quarter of a percent of headroom) |
| OfframpPricing.QuoteSplitsSend | src/core/quotes/computeOfframpQuoteAmounts.ts:27-51 | every quote's send is its net send, the platform fee and the transfer fee, if that is above zero |
| OfframpPricing.MarkedUpExactly | src/core/quotes/onrampAccountMarkup.ts:49-87 | a markup applies exactly to a positive amount of a positive market rate with named currencies whose factor is positive |
| OfframpPricing.SourceFixedIsNeverInsolvent | src/core/quotes/createOfframpQuote.ts:213-244 | a source-fixed two-decimal quote is never refused as insolvent unless the pair's rule raises the rate |
| OfframpPricing.TwoDecimalSourceFixedIsNeverInsolvent | src/core/quotes/roundPayoutFiatAmount.ts:6-13 | so for every payout currency but those without minor units |
| OfframpPricing.RateIsFloored | src/core/quotes/floorOfframpMarketRate.ts:7-19 | flooring first and marking up afterwards leaves the rate at or below the executable one |
| OfframpPricing.DestinationExcessIsSlack | src/core/quotes/createOfframpQuote.ts:305-314 | a destination-fixed quote is refused as insolvent only for an excess of at most 1e-17 |
| OfframpPricing.SlackIsReached | src/core/quotes/offrampQuoteSolvency.ts:7-17 | and there is a rate at which it is refused for exactly that |
| OfframpPricing.QuotesAreCovered | src/core/quotes/createOfframpQuote.ts:298-314 | every quote given is covered by the provider's rate or by the funding cap |
| OfframpPricing.SourceQuoteIsForward | src/core/quotes/createOfframpQuote.ts:259-284 | a source-fixed quote promises exactly what its send yields forward at the final rate; what the fees take of the send is `OfframpPricing.QuoteSplitsSend` |
| OfframpPricing.DestinationQuoteIsMet | src/core/quotes/createOfframpQuote.ts:259-284 | a destination-fixed quote promises the fiat asked for, and its send yields that within the solver's bounds |
| OnrampQuote.DestinationIsCredited | src/core/quotes/computeOnrampQuoteAmounts.ts:42-97 | the asked fiat, converted forward in either orientation with both fees taken, credits the locked crypto up to the ceiling's slack and less than a minor unit's worth more |
| OnrampQuote.DestinationsAreCreditedExactly | src/core/quotes/computeOnrampQuoteAmounts.ts:71-77 | for every destination if and only if the percentage is at most 0.999999 |
| OnrampQuote.AskedFiatBounds | src/core/quotes/roundPayoutFiatAmount.ts:23-28 | the asked fiat exceeds the exact amount by less than one minor unit and is whole |
| OnrampQuote.ConversionsInvert | src/core/quotes/computeOnrampQuoteAmounts.ts:22-36 | the two conversions are inverse in either orientation of the rate |
| OnrampQuote.RateCounts | src/core/quotes/computeOnrampQuoteAmounts.ts:22-36 | one unit of fiat buys the rate in crypto, or the rate in fiat buys one unit of crypto |
| OnrampQuote.CreditedSplits | src/core/quotes/computeOnrampQuoteAmounts.ts:42-97 | what the fiat buys is what is credited and both fees, if it covers them; a missing or negative network fee takes nothing |
| OnrampPricing.PriceOnrampQuote | src/core/quotes/createOnrampQuote.ts:83-228 | each refusal exactly for its own reason; a source-fixed quote splits what it buys into the net receive, the platform fee and the network fee, a destination-fixed one asks the solver's fiat up to whole minor units, both at the rate that was picked |
| OnrampPricing.PickRate | src/core/quotes/createOnrampQuote.ts:113-170 | the account's markup replaces the pair's; at most one applies |
| OnrampPricing.OneMarkupApplies | src/core/quotes/onrampAccountMarkup.ts:49-87 | the marked-up rate is the market rate times one factor |
| OnrampPricing.PricedExactly | src/core/quotes/createOnrampQuote.ts:113-170 | without a markup the answer as it is; with one the market rate times the account's factor, doubled in the fiat-to-fiat flow, or else the pair's, and what the amount converts to at it |
| OnrampPricing.QuotedSourceIsCredited | src/core/quotes/createOnrampQuote.ts:219-228 | a source-fixed quote under a markup promises exactly what the sent fiat credits |
| OnrampPricing.QuotedDestinationIsCredited | src/core/quotes/createOnrampQuote.ts:199-218 | a destination-fixed quote that is given credits its locked crypto up to the slack |
| DecimalCap.CapIsTruncation | src/core/integrations/palremitOfframp.ts:339-347 | the cap v of a decimal string has v <= input < v + 1e-6, fits the acceptance format, is a fixed point, and exists exactly when it is above zero |
| DecimalCap.DecimalExactly | src/core/integrations/palremitOfframp.ts:342-342 | the format, by its parts: a zero or digits that begin with another one, and a point with digits or none |
| DecimalCap.AcceptedIsItsOwnCap | src/core/integrations/palremitOfframp.ts:339-347 | a text is accepted exactly when it is its own cap |
| DecimalCap.CutFraction | src/core/integrations/palremitOfframp.ts:344-344 | a fraction cut after n digits loses less than one unit of the last place kept |
| DecimalCap.SentCap | src/core/quotes/createOfframpQuote.ts:414-414 | the stored 8-decimal cap, cut, is a whole number of millionths |
| DecimalCap.UsdSellCapCovers | src/core/quotes/usdStableSell.ts:63-70 | the cap of a dollar sell covers the provider's source amount whenever that is at least 0.000397995 / 1.0025 |
| DecimalCap.BelowTheBoundNotAlways | src/core/quotes/usdStableSell.ts:63-70 | right below that bound some amounts are not covered |
| PairMarkup.SavedMarkupIsServed | src/core/admin/pairMarkup.ts:126-151 | after a save and a reload each pair of the saved row is priced at its markup, doubled in the fiat-to-fiat flow, and so is every other row's |
| PairMarkup.SavedPairIsFound | src/core/quotes/pairMarkup.ts:34-42 | the same for currency names as a quote gives them, and its flow |
| PairMarkup.LookupIgnoresOrder | src/core/quotes/pairMarkup.ts:44-61 | with one rule per (fiat, side) the lookup does not depend on the rules' order |
| PairMarkup.FirstMatchExactly | src/core/quotes/pairMarkup.ts:44-61 | the scan returns a rule's match exactly when that rule prices the pair, wherever it stands |
| PairMarkup.AtMostOneRulePrices | src/core/quotes/pairMarkup.ts:50-58 | no two rules with different keys price the same pair |
| PairMarkup.AcceptedIsValid | src/core/admin/pairMarkup.ts:80-119 | an accepted entry is a valid row for the given legs whose markup is the input's up to 1e-8 |
| PairMarkup.NormalizeExactly | src/core/admin/pairMarkup.ts:80-119 | an entry is accepted exactly when its fiat is three letters, its side is one, it asks for legs and only for allowed ones, and its markup is between 0 and 1000 basis points with two decimals; each refusal for the first that fails |
| PairMarkup.FindExactly | src/core/quotes/pairMarkup.ts:34-61 | a lookup without two names finds nothing, else the first match, doubled exactly in the fiat-to-fiat flow |
| PairMarkup.UsableExactly | src/core/quotes/pairMarkupStore.ts:37-62 | a row is usable exactly when it has a side, a leg and no negative markup |
| PairMarkup.StoredCryptosReadBack | src/core/quotes/pairMarkupStore.ts:39-44 | the stored comma-separated list reads back as the legs accepted |
| PairMarkup.ValidTableGivesItsRules | src/core/quotes/pairMarkupStore.ts:47-62 | no valid row is skipped: the rules are the rows' rules, one each |
| PairMarkup.RulesFromSettings | src/core/quotes/pairMarkupStore.ts:47-62 | the loop builds the rules of the usable rows in order |
| PairMarkup.UpsertMembers | src/db/repositories/pairMarkup.repo.ts:38-48 | an upsert replaces exactly the row of its key |
| PairMarkup.RemovedPairIsUnpriced | src/core/admin/pairMarkup.ts:154-172 | after a removal and a reload no pair of the removed row has a markup, and every other row is served as before |
| PairMarkupStore.ReadYourWrites | src/core/quotes/pairMarkupStore.ts:75-89 | once a reload that began after a write has finished, the rules in memory are for ever those of a table no older than the write, in every interleaving |
| PairMarkupStore.AppliedTicketsIncrease | src/core/quotes/pairMarkupStore.ts:78-84 | the tickets applied strictly increase |
| PairMarkupStore.ReloadRuns | src/core/quotes/pairMarkupStore.ts:75-89 | a reload with nothing in between, as the methods run it, is a run, and takes the table as it is |
| PairMarkupStore.FailedReloadRuns | src/core/quotes/pairMarkupStore.ts:75-89 | so is one that fails, which leaves no trace but its ticket |
| PairMarkupStore.MemoryCanGoBack | src/core/quotes/pairMarkupStore.ts:75-89 | the table version in memory is not monotone |
| PairMarkupStore.Store.FinishReload | src/core/quotes/pairMarkupStore.ts:79-89 | a failed or overtaken reload changes nothing, any other takes its rows and its ticket |
| PairMarkupStore.Store.Save | src/core/admin/pairMarkup.ts:126-151 | an invalid or unchanged entry changes nothing; any other is written and reloaded |
| PairMarkupStore.Store.Remove | src/core/admin/pairMarkup.ts:154-172 | an unknown row changes nothing; any other is removed and the table reloaded |
| BankResolve.FindBankResolveCore | src/core/integrations/palremitBanks.ts:126-210 | the walk ends on every tree and returns the object that has a bank code, an account number and as many of the four texts as any other such object, the deepest of those and the first in visit order among the deepest, or nothing exactly when no object has both |
| BankResolve.EveryObjectIsVisited | src/core/integrations/palremitBanks.ts:169-206 | every object reachable through items, members and JSON text members is visited, at the depth of its path |
| BankResolve.EveryVisitHasItsPath | src/core/integrations/palremitBanks.ts:169-206 | and nothing else is visited |
| BankResolve.ImprovedIsFirstBest | src/core/integrations/palremitBanks.ts:179-189 | a running best that is replaced only by strictly better records is the first maximum |
| BankResolve.ScoreCountsTexts | src/core/integrations/palremitBanks.ts:144-163 | the score counts the four texts that a record has under any of their keys |
| BankResolve.FieldTextExactly | src/core/integrations/palremitBanks.ts:126-142 | a field has a text exactly when one of its keys holds a text that is not blank, or a number with one |
| BankResolve.LooksLikeJsonExactly | src/core/integrations/palremitBanks.ts:191-199 | a text looks like JSON exactly when it is wrapped in braces or in brackets |
| BankResolve.InnerExactly | src/core/integrations/palremitBanks.ts:191-204 | a text member is walked as JSON exactly when it looks like it and can be parsed |
| BankResolve.Inner | src/core/integrations/palremitBanks.ts:191-204 | a text member is walked as JSON only if it looks like it, and what it holds is smaller |
| StableJson.SortDeepIsCanonical | src/utils/stableJson.ts:3-17 | two values sort to the same value exactly when they are equal up to key order at every depth, `__proto__` members aside |
| StableJson.SortDeepComparesUpToKeyOrder | src/utils/stableJson.ts:1-17 | without such members the comparison is key-order independence, both ways |
| StableJson.NothingIsLostExactly | src/utils/stableJson.ts:3-17 | the canonical form differs from the value in key order only, exactly when no object at any depth has a `__proto__` member |
| StableJson.ProtoMemberIsLost | src/utils/stableJson.ts:12-15 | adding a `__proto__` member changes the object but not its canonical form |
| StableJson.SortDeepIsIdempotent | src/utils/stableJson.ts:3-17 | the canonical form is a fixed point |
| StableJson.SortJsonDeep | src/utils/stableJson.ts:3-17 | the recursion that fills new objects key by key computes the canonical form |
| Json.WellFormedExactly | src/utils/stableJson.ts:3-17 | the values these lemmas are about: no object at the end of any path repeats a key |
| WebhookKey.RedeliveryKeepsItsKey | src/core/webhooks/buildWebhookDedupeKey.ts:51-62 | a redelivery that differs only in key order has the same key |
| WebhookKey.ReferenceExactly | src/core/webhooks/buildWebhookDedupeKey.ts:8-24 | the reference is read at the top, in the withdrawal, in the account or as the older `txnRef`, on the first of these that holds a text |
| WebhookKey.EntityIdExactly | src/core/webhooks/buildWebhookDedupeKey.ts:26-49 | the id likewise, where a text `id`, even a blank one, hides `_id` |
| WebhookKey.KeysMatchExactly | src/core/webhooks/buildWebhookDedupeKey.ts:51-62 | exactly which deliveries of one event type share a key, whatever their references, ids and bodies |
| WebhookKey.ReferencedDeliveriesMatchExactly | src/core/webhooks/buildWebhookDedupeKey.ts:55-60 | with references of which neither extends the other by a colon, two deliveries are one exactly when the references agree and so do the ids, or the digests in their place |
| WebhookKey.ColonsCollideExactly | src/core/webhooks/buildWebhookDedupeKey.ts:55-57 | a delivery with a reference and an id has another one with a shorter reference under the same key if and only if its reference has a colon that is not in front and has no blank beside it |
| WebhookKey.UnreferencedDeliveriesMatchExactly | src/core/webhooks/buildWebhookDedupeKey.ts:61-61 | without a reference, exactly when the bodies are equal up to key order |
| AccountCreate.CreatedOnce | src/core/accounts/createAccount.ts:237-330 | in every interleaving, deletes included, a successful call returns the id of a row made for its request id and payload, which is the request id's row exactly while it is not deleted; a conflict met another payload, a missing row was deleted, and created event and provisioning happen at most once per account |
| AccountCreate.SameIdUnlessDeleted | src/core/accounts/createAccount.ts:237-304 | two successful calls with one request id return the same id unless one of the two rows was deleted |
| AccountCreate.SecondInsertLooksUp | src/core/accounts/createAccount.ts:285-304 | of two calls at the insert the second makes no row and is decided by the first one's |
| AccountCreate.RowStaysUntilDeleted | src/db/repositories/account.repo.ts:240-254 | a row stays the row of its request id if and only if it is not deleted |
| AccountCreate.MissingExactly | src/core/accounts/createAccount.ts:285-304 | a call that lost the insert finds no row exactly when the row was deleted and none inserted before its second lookup |
| AccountCreate.MissingHappens | src/core/accounts/createAccount.ts:285-295 | such a run, for every request |
| AccountCreate.RemadeHappens | src/core/accounts/deleteAccount.ts:14-41 | a run in which two calls with one request id create two accounts |
| AccountCreate.CallRuns | src/core/accounts/createAccount.ts:237-370 | a whole call is a run of the machine, and what it leaves: the row that was there decides, else its own row, one created event, and one call to the provider if the account is named or its holder imported |
| AccountCreate.IssueEnds | src/core/accounts/createAccount.ts:306-370 | the provider's answer meets the call's own row, or fails exactly when that is gone |
| AccountCreate.FailedImportLeavesTheRow | src/core/accounts/createAccount.ts:347-370 | a failed KYC import leaves its row, which a retry reports as existing |
| AccountCreate.Accounts.CreateOnrampAccount | src/core/accounts/createAccount.ts:237-345 | one call with a rival insert and a delete in between: each outcome exactly when, and its events |
| TxnRef.FeeReferencesAreExact | src/utils/txnRef.ts:41-78 | a fee reference reads back as its own kind of transaction reference and nothing else |
| TxnRef.FormExactly | src/utils/txnRef.ts:31-39 | a reference is its prefix and 24 lower-case hexadecimal digits |
| TxnRef.PlainReferenceIsNoFeeReference | src/utils/txnRef.ts:48-52 | a transaction reference is never taken for a fee reference |
| TxnRef.KeysAreInjective | src/core/integrations/palremitOnramp.ts:657-657 | withdrawals of different kinds or references never share an idempotency key |

## Left out

- Routes, controllers, middleware, configuration, logging, HTTP, Redis, S3, Prisma, signing: plumbing around the model.
- Polling and the choice of deposit accounts (most of src/core/integrations/palremitOnramp.ts, src/core/accounts/graphAccountIssuance.ts, src/core/accounts/staticDepositAccounts.ts): I/O and configuration; the answers are parameters.
- KYC field mapping, account row mapping, masking, destination merging, limits, wallets, KYB, audit text, labels: field by field and without branching that matters here.
- Floating-point error: amounts are exact reals; NaN, infinities and numbers printed with an exponent do not occur.
- Characters outside ASCII in `trim` and upper-casing.
- The creation of onramp and offramp rows: rows exist from the start of a run, waiting or just created, and are never deleted.
- The provider's withdrawal states other than pending, processing, successful, failed and refunded, which a retry rejects as not retriable.
- The deposit details that provisioning webhooks store: only their status writes are modelled.
- Whether a completed payout was only funded: the machine lets a late failure be recorded on any completed offramp.
- The onramp expiry sweep and the operator marks as methods: they are steps of the machine only.
- Fields of rows that no decision reads (receipts, raw payloads, reasons, timestamps beyond their presence), and the transaction hash and times of a fee settlement.
- TransferClaims.StepOnInv: the funds guard reads and writes the row in one step, because that is what its callers rely on; the gap between the two statements is `TransferGaps.GuardGapExactly` and `TransferGaps.OnrampGuardGapExactly`.
- FeeRuns.FeesArePaidOnceAndRight: operations on one ramp's fee do not overlap; of overlaps, only a webhook during an approval is stated, in `FeeRuns.WebhookDuringApprovalIsLost`.
- FeeSettlement.CheckIsExact: currency texts are already read as USDT, USDC, blank or unsupported, and the network list as the network it resolves to.
- OfframpPricing.PriceOfframpQuote: the transfer fee in the send currency and the provider's executable rate are parameters; the profit estimate and the stored snapshot are not modelled.
- PairMarkup.AcceptedIsValid: a side other than buy or sell is one value, whatever its text.
- StableJson.SortJsonDeep: keys that are array indices, which JavaScript lists first, are not treated apart; this changes the text of a canonical form but not which forms are equal.
- WebhookKey.UnreferencedDeliveriesMatchExactly: the digest is any function that tells the two bodies apart.
- BankResolve.FindBankResolveCore: of the extraction around the walk, the direct reads and the search for single fields are not modelled; a parsed text is taken to weigh no more than its length.
- Desk.Desk.ExpireStaleOfframps: writes what it decided on rows listed earlier, so it is no whole operation of `Operations`.
- AccountCreate.CreatedOnce: pending transactions, which refuse a delete, are not modelled; the offramp branch, which has no request id, and failures of the database other than the unique column are not modelled.
