/**
 The provider's older offramp.* events write a row whatever its status and, four of them, a timeline that holds nothing
 but their own instant (core/webhooks/processWebhookEvent.ts). What that breaks, exactly when, with runs from fresh rows.
 */
module OlderEvents {
  import opened Wrappers
  import opened Ramps
  import opened DepositAmount
  import opened PairCheck
  import opened Transfer
  import opened TransferClaims
  import opened TransferRows
  import opened TransferFunds
  import opened TransferGaps
  import opened Runs
  import Operations
  import Text

  lemma {:induction false} RunAppend(s: State, xs: seq<Step>, ys: seq<Step>)
    requires Legal(s, xs) && Legal(Exec(s, xs), ys)
    ensures Legal(s, xs + ys) && Exec(s, xs + ys) == Exec(Exec(s, xs), ys)
    decreases |xs|
  {
    if xs == [] {
      assert xs + ys == ys;
    } else {
      RunAppend(Apply(s, xs[0]), xs[1..], ys);
      assert (xs + ys)[1..] == xs[1..] + ys;
    }
  }

  // ---------- crypto_received reopens an offramp ----------

  /** The event keeps the claims invariant exactly on offramps that no onramp has claimed. */
  lemma ReopeningIsSafeExactly(s: State, off: nat)
    requires ClaimsInv(s) && off in s.offs
    ensures ClaimsInv(Apply(s, WriteOff(off, CryptoReceivedEvent))) <==> forall i :: 0 <= i < |s.claims| ==> s.claims[i].off != off
  {
    hide Funds;
    var s' := Apply(s, WriteOff(off, CryptoReceivedEvent));
    if forall i :: 0 <= i < |s.claims| ==> s.claims[i].off != off {
      forall p | p in s'.onProcs ensures CheckedOk(s'.ons, s'.offs, s'.onProcs[p]) {
        assert CheckedOk(s.ons, s.offs, s.onProcs[p]);
      }
      forall i | 0 <= i < |s.claims| ensures ClaimOk(s'.ons, s'.offs, s.claims[i]) {
        assert ClaimOk(s.ons, s.offs, s.claims[i]);
      }
    } else {
      var i :| 0 <= i < |s.claims| && s.claims[i].off == off;
      assert !ClaimOk(s'.ons, s'.offs, s'.claims[i]);
    }
  }

  /** A reopened offramp pairs as it did when it was fresh. */
  lemma ReopenedMatches(row: Onramp, offs: map<nat, Offramp>, off: nat, reopened: Offramp, now: int)
    requires SoleMatch(row, offs, now) == Some(off)
    requires reopened == Offramp(offs[off].info, OffStatus.CryptoPending, BlankTimeline, reopened.refs)
    ensures SoleMatch(row, offs[off := reopened], now) == Some(off)
  {
    var ms, ms' := Matches(row.info, offs, now), Matches(row.info, offs[off := reopened], now);
    ReopenedPairs(row.info, offs, off, reopened, now);
    forall o ensures o in ms' <==> o == off {
      if o != off { OtherMatches(row.info, offs, off, reopened, now, o); }
    }
    assert ms' == {off};
  }

  lemma ReopenedChecks(on: OnrampInfo, row: Offramp, reopened: Offramp, now: int)
    requires CheckPair(on, row, now).Pair? && reopened == Offramp(row.info, OffStatus.CryptoPending, BlankTimeline, reopened.refs)
    ensures CheckPair(on, reopened, now).Pair?
  {
    assert PriorReceived(reopened.timeline) == 0.0;
    assert FundingMismatch(on.dest, row.info.deposit).None?;
  }

  /** Whatever had been credited on-chain: if the onramp paired with the row when it was fresh, it does after the event. */
  lemma ReopeningForgetsCredits(on: OnrampInfo, row: Offramp, now: int)
    requires CheckPair(on, Offramp(row.info, OffStatus.AwaitingCrypto, BlankTimeline, BlankRefs), now).Pair?
    ensures CheckPair(on, ApplyOffEvent(row, CryptoReceivedEvent), now).Pair?
  {
    ReopenedChecks(on, Offramp(row.info, OffStatus.AwaitingCrypto, BlankTimeline, BlankRefs), ApplyOffEvent(row, CryptoReceivedEvent), now);
  }

  lemma ReopenedPairs(on: OnrampInfo, offs: map<nat, Offramp>, off: nat, reopened: Offramp, now: int)
    requires off in offs && off in Matches(on, offs, now)
    requires reopened == Offramp(offs[off].info, OffStatus.CryptoPending, BlankTimeline, reopened.refs)
    ensures off in Matches(on, offs[off := reopened], now)
  {
    ReopenedChecks(on, offs[off], reopened, now);
    assert off in Candidates(on, offs) && Settleable(offs[off].status);
    assert off in Candidates(on, offs[off := reopened]);
  }

  /** A second onramp that finds the offramp open claims it. */
  lemma SecondClaim(s: State, on: nat, other: nat, off: nat, now: int)
    requires s.onProcs == map[] && AboutToCheck(s, other, off, now) && on != other
    requires s.claims != [] && s.claims[0].on == on && s.claims[0].off == off
    ensures ClaimedTwice(s, [Advance(0, other, now)] + ([ClaimStep(0)] + []))
  {
    var p := AdvanceChecks(s, 0, other, now);
    var s1 := Apply(s, Advance(0, other, now));
    var s2 := Apply(s1, ClaimStep(0));
    assert s2.claims[0] == s.claims[0] && s2.claims[|s.claims|].off == off && s2.claims[|s.claims|].on == other;
    ClaimedTwiceCons(s1, ClaimStep(0), []);
    ClaimedTwiceCons(s, Advance(0, other, now), [ClaimStep(0)] + []);
  }

  function ReopenRun(other: nat, off: nat, now: int): seq<Step> {
    [WriteOff(off, CryptoReceivedEvent)] + ([CreditStep(other)] + ([Advance(0, other, now)] + ([ClaimStep(0)] + [])))
  }

  /** From a settled onramp on: the event, and the other onramp's fiat. */
  lemma ReopenedIsClaimed(s: State, on: nat, other: nat, off: nat, now: int)
    requires s.onProcs == map[] && off in s.offs && other in s.ons && other in s.crypto && on != other
    requires s.claims != [] && s.claims[0].on == on && s.claims[0].off == off
    requires s.ons[other].status.AwaitingFunds? && IsFiatToFiat(Text.Trim(s.ons[other].info.flow))
    requires SoleMatch(s.ons[other], s.offs[off := ApplyOffEvent(s.offs[off], CryptoReceivedEvent)], now) == Some(off)
    ensures ClaimedTwice(s, ReopenRun(other, off, now))
  {
    var rest := [Advance(0, other, now)] + ([ClaimStep(0)] + []);
    var s1 := WithOff(s, off, ApplyOffEvent(s.offs[off], CryptoReceivedEvent));
    CreditLands(s1, other);
    var s2 := Credited(s1, other);
    SameMatch(s.ons[other], s2.ons[other], s2.offs, now);
    SecondClaim(s2, on, other, off, now);
    ClaimedTwiceCons(s1, CreditStep(other), rest);
    ClaimedTwiceCons(s, WriteOff(off, CryptoReceivedEvent), [CreditStep(other)] + rest);
  }

  lemma ClaimedThenReopened(row: Onramp, offs: map<nat, Offramp>, off: nat, funded: Offramp, now: int)
    requires SoleMatch(row, offs, now) == Some(off) && funded.info == offs[off].info
    ensures SoleMatch(row, offs[off := funded][off := ApplyOffEvent(funded, CryptoReceivedEvent)], now) == Some(off)
  {
    hide SoleMatch;
    var reopened := ApplyOffEvent(funded, CryptoReceivedEvent);
    ReopenedMatches(row, offs, off, reopened, now);
    assert offs[off := funded][off := reopened] == offs[off := reopened];
  }

  lemma ClaimReopens(s: State, on: nat, other: nat, off: nat, now: int)
    requires Ready(s, on, off, now) && Ready(s, other, off, now)
    ensures var offs := AfterClaim(s, on, off, now).offs;
            SoleMatch(s.ons[other], offs[off := ApplyOffEvent(offs[off], CryptoReceivedEvent)], now) == Some(off)
  {
    ClaimedThenReopened(s.ons[other], s.offs, off, AfterClaim(s, on, off, now).offs[off], now);
  }

  lemma CompletedClaim(s: State, on: nat, off: nat, now: int)
    requires Ready(s, on, off, now)
    ensures var s3 := AfterClaim(s, on, off, now);
            && Enabled(s3, CompleteStep(0))
            && var s4 := Apply(s3, CompleteStep(0));
               && s4.onProcs == map[] && s4.offs == s3.offs && s4.crypto == s.crypto && s4.claims == s3.claims
               && s4.ons.Keys == s.ons.Keys && forall o :: o in s.ons && o != on ==> s4.ons[o] == s.ons[o]
  {
  }

  /** Fresh rows again: two onramps that pay into one deposit are both settled into it. */
  lemma ReopeningIsReachable(s: State, on: nat, other: nat, off: nat, now: int)
    requires Ready(s, on, off, now) && Ready(s, other, off, now) && on != other
    ensures ClaimedTwice(s, ClaimRun(on, now, [CompleteStep(0)] + ReopenRun(other, off, now)))
  {
    ClaimReopens(s, on, other, off, now);
    CompletedClaim(s, on, off, now);
    var s3 := AfterClaim(s, on, off, now);
    ReopenedIsClaimed(Apply(s3, CompleteStep(0)), on, other, off, now);
    ClaimedTwiceCons(s3, CompleteStep(0), ReopenRun(other, off, now));
    FreshClaim(s, on, off, now, [CompleteStep(0)] + ReopenRun(other, off, now));
  }

  // ---------- evidence is lost, and then the guard no longer holds ----------

  /** An event erases the evidence of received crypto exactly when it replaces the timeline. */
  lemma EventErasesExactly(row: Offramp, e: OffEvent)
    requires CryptoEvidence(row.timeline)
    ensures CryptoEvidence(ApplyOffEvent(row, e).timeline) <==> !ReplacesTimeline(e)
  {
  }

  /** After which events `offramp.failed` fails a credited row: those that leave neither evidence nor a funded status. */
  lemma FailsAfterExactly(row: Offramp, e: OffEvent)
    requires CryptoEvidence(row.timeline) && !OfframpAutoFail(row.status)
    ensures !ApplyOffEvent(row, FailedEvent).status.Failed?
    ensures ApplyOffEvent(ApplyOffEvent(row, e), FailedEvent).status.Failed? <==> e.CompletedEvent? || e.CancelledEvent?
  {
  }

  /** A credited offramp fails although no operator said so: every hypothesis of `CreditedOfframpNeverFails` but the serial one. */
  lemma CreditedOfframpFails(s: State, off: nat, amount: real)
    requires Init(s) && off in s.offs && s.offs[off].status.AwaitingCrypto? && Expected(s.offs[off].info).Some? && amount >= 0.0
    ensures var first := [Start(0, off, Credit(amount))] + ([Finish(0)] + []);
            && Legal(s, first) && SerialRun(s, first)
            && var m := Exec(s, first);
               && off in m.offs && CryptoEvidence(m.offs[off].timeline) && !OfframpAutoFail(m.offs[off].status)
               && Fails(m, off)
  {
    InitRows(s);
    WriteRuns(s, off, Credit(amount));
    CompletedThenFailed(Written(s, off, Credit(amount)), off);
  }

  ghost predicate Fails(s: State, off: nat) {
    var rest := [WriteOff(off, CompletedEvent)] + ([WriteOff(off, FailedEvent)] + []);
    Legal(s, rest) && NoOverride(s, rest) && off in Exec(s, rest).offs && Exec(s, rest).offs[off].status.Failed?
  }

  lemma CompletedThenFailed(s: State, off: nat)
    requires off in s.offs && CryptoEvidence(s.offs[off].timeline) && !OfframpAutoFail(s.offs[off].status)
    ensures Fails(s, off)
  {
    var s1 := Apply(s, WriteOff(off, CompletedEvent));
    var s2 := Apply(s1, WriteOff(off, FailedEvent));
    FailsAfterExactly(s.offs[off], CompletedEvent);
    var last := [WriteOff(off, FailedEvent)] + [];
    assert last[0] == WriteOff(off, FailedEvent) && last[1..] == [];
    assert NoOverride(s2, []);
    assert NoOverride(s1, last);
    RunCons(s1, WriteOff(off, FailedEvent), []);
    RunCons(s, WriteOff(off, CompletedEvent), last);
    assert ([WriteOff(off, CompletedEvent)] + last)[1..] == last;
  }

  // ---------- a reissued payout is handed off again ----------

  /** A row with a payout is handed off again after `offramp.crypto_confirmed` exactly when its timeline was replaced. */
  lemma HandsOffAgainExactly(row: Offramp, e: OffEvent)
    requires row.timeline.fiatWithdrawalId.Some? && !row.timeline.fiatWithdrawalCompleted && !e.FailedEvent?
    ensures OpEnabled(ApplyOffEvent(ApplyOffEvent(row, e), CryptoConfirmedEvent), HandOff) <==> ReplacesTimeline(e) && row.info.payable
  {
  }

  /** The first payout failed and was reissued; the reissue is the row's current one. */
  predicate Reissued(s: State, off: nat) {
    && off in s.offs && off in s.payouts && |s.payouts[off]| == 2
    && var ps, row := s.payouts[off], s.offs[off];
       && ps[0].key == FirstKey && Reissueable(ps[0].state) && row.info.payable
       && row.refs.palremitWithdrawalId == Some(ps[1].id) && row.refs.superseded == [ps[0].id]
  }

  /** The superseded first payout is the row's current one again, and the list names it twice. */
  predicate Replayed(s: State, off: nat) {
    && off in s.offs && off in s.payouts && |s.payouts[off]| == 2
    && var ps, row := s.payouts[off], s.offs[off];
       Listed(row) == [ps[0].id, ps[0].id] && CurrentPayout(row) == Some(ps[0].id) && Reissueable(ps[0].state)
  }

  function Reconfirmed(s: State, off: nat): State
    requires off in s.offs
  {
    WithOff(s, off, ApplyOffEvent(ApplyOffEvent(s.offs[off], FiatInitiatedEvent), CryptoConfirmedEvent))
  }

  function ReplaySteps(s: State, off: nat): seq<Step>
    requires off in s.offs
  {
    [WriteOff(off, FiatInitiatedEvent)] + ([WriteOff(off, CryptoConfirmedEvent)] + HandoffSteps(Reconfirmed(s, off), off, Accepted))
  }

  lemma ReissuedIsReplayed(s: State, off: nat)
    requires Quiet(s) && Reissued(s, off)
    ensures Legal(s, ReplaySteps(s, off)) && Replayed(Exec(s, ReplaySteps(s, off)), off)
  {
    var s1 := Apply(s, WriteOff(off, FiatInitiatedEvent));
    var s2 := Reconfirmed(s, off);
    assert Apply(s1, WriteOff(off, CryptoConfirmedEvent)) == s2;
    HandoffRuns(s2, off, Accepted);
    HandoffReplays(s2, off);
    RunCons(s1, WriteOff(off, CryptoConfirmedEvent), HandoffSteps(s2, off, Accepted));
    RunCons(s, WriteOff(off, FiatInitiatedEvent), [WriteOff(off, CryptoConfirmedEvent)] + HandoffSteps(s2, off, Accepted));
  }

  lemma HandoffReplays(s: State, off: nat)
    requires Quiet(s) && Reissued(s, off) && OpEnabled(s.offs[off], HandOff)
    ensures Replayed(Handed(s, off, Accepted), off)
  {
    FindKeyAt(s.payouts[off], FirstKey, 0);
  }

  // ---------- and from fresh rows ----------

  function ReissueOps(off: nat, amount: real): seq<Operations.Operation> {
    [Operations.CreditOp(off, amount, Accepted)] + (
      [Operations.ProviderOp(off, 0, LpFailed)] + ([Operations.RetryOp(off, true, Accepted)] + []))
  }

  lemma PerformAllCons(s: State, op: Operations.Operation, rest: seq<Operations.Operation>)
    requires Operations.Keyed(s)
    ensures Operations.PerformAll(s, [op] + rest) == Operations.PerformAll(Operations.Perform(s, op), rest)
  {
    assert ([op] + rest)[1..] == rest;
  }

  lemma PerformThree(s: State, a: Operations.Operation, b: Operations.Operation, c: Operations.Operation)
    requires Operations.Keyed(s)
    ensures Operations.PerformAll(s, [a] + ([b] + ([c] + []))) ==
              Operations.Perform(Operations.Perform(Operations.Perform(s, a), b), c)
  {
    var s1 := Operations.Perform(s, a);
    var s2 := Operations.Perform(s1, b);
    PerformAllCons(s, a, [b] + ([c] + []));
    PerformAllCons(s1, b, [c] + []);
    PerformAllCons(s2, c, []);
  }

  /** The row after its first handoff, its payout in the state given. */
  predicate HandedOff(s: State, off: nat, state: LpState) {
    && off in s.offs && off in s.payouts && |s.payouts[off]| == 1 && s.offs[off].info.payable
    && s.payouts[off] == [Payout(s.payouts[off][0].id, FirstKey, state)]
    && s.offs[off].refs == Refs(Some(s.payouts[off][0].id), [], false)
    && s.offs[off].timeline.fiatWithdrawalId == Some(s.payouts[off][0].id)
  }

  lemma CompleteCredit(row: Offramp, amount: real)
    requires row.timeline == BlankTimeline && row.refs == BlankRefs && row.info.payable && CreditCompletes(row, amount)
    ensures var credited := ApplyWrite(row, row, CreditWrite(amount));
            OpEnabled(credited, HandOff) && credited.refs == BlankRefs && credited.info == row.info
  {
  }

  lemma FirstHandoff(s: State, off: nat)
    requires Operations.Keyed(s) && off in s.offs && OpEnabled(s.offs[off], HandOff) && s.payouts[off] == []
    requires s.offs[off].refs == BlankRefs
    ensures HandedOff(Handed(s, off, Accepted), off, LpPending)
  {
  }

  lemma CreditHandsOff(s: State, s1: State, off: nat, amount: real)
    requires Init(s) && off in s.offs && s.offs[off].status.AwaitingCrypto? && s.offs[off].info.payable
    requires amount >= 0.0 && CreditCompletes(s.offs[off], amount)
    requires s1 == Operations.Perform(s, Operations.CreditOp(off, amount, Accepted))
    ensures HandedOff(s1, off, LpPending) && Operations.Keyed(s1)
  {
    CompleteCredit(s.offs[off], amount);
    FirstHandoff(Written(s, off, Credit(amount)), off);
  }

  lemma PayoutFails(s: State, s': State, off: nat)
    requires Operations.Keyed(s) && HandedOff(s, off, LpPending)
    requires s' == Operations.Perform(s, Operations.ProviderOp(off, 0, LpFailed))
    ensures HandedOff(s', off, LpFailed) && Operations.Keyed(s')
  {
  }

  lemma FailedPayoutReissues(s: State, s': State, off: nat)
    requires Operations.Keyed(s) && HandedOff(s, off, LpFailed)
    requires s' == Operations.Perform(s, Operations.RetryOp(off, true, Accepted))
    ensures Reissued(s', off)
  {
  }

  /** A complete credit, the failure of the payout it starts, and the operator's retry. */
  lemma ReissueHappens(s: State, off: nat, amount: real)
    requires Init(s) && off in s.offs && s.offs[off].status.AwaitingCrypto? && s.offs[off].info.payable
    requires amount >= 0.0 && CreditCompletes(s.offs[off], amount)
    ensures Reissued(Operations.PerformAll(s, ReissueOps(off, amount)), off)
  {
    var s1 := Operations.Perform(s, Operations.CreditOp(off, amount, Accepted));
    CreditHandsOff(s, s1, off, amount);
    var s2 := Operations.Perform(s1, Operations.ProviderOp(off, 0, LpFailed));
    PayoutFails(s1, s2, off);
    FailedPayoutReissues(s2, Operations.Perform(s2, Operations.RetryOp(off, true, Accepted)), off);
    PerformThree(s, Operations.CreditOp(off, amount, Accepted), Operations.ProviderOp(off, 0, LpFailed), Operations.RetryOp(off, true, Accepted));
  }

  lemma ReissueOpsLead(s: State, off: nat, amount: real)
    requires Quiet(s)
    ensures var ops := ReissueOps(off, amount);
            Legal(s, Operations.AllSteps(s, ops)) && Exec(s, Operations.AllSteps(s, ops)) == Operations.PerformAll(s, ops)
  {
    Operations.WithoutOlderEventsAllowed(s, ReissueOps(off, amount));
    Operations.OperationsRun(s, ReissueOps(off, amount));
  }

  lemma ReplayFollows(s: State, steps: seq<Step>, m: State, off: nat)
    requires Legal(s, steps) && Exec(s, steps) == m && Quiet(m) && Reissued(m, off)
    ensures Legal(s, steps + ReplaySteps(m, off)) && Replayed(Exec(s, steps + ReplaySteps(m, off)), off)
  {
    ReissuedIsReplayed(m, off);
    RunAppend(s, steps, ReplaySteps(m, off));
  }

  /** So from fresh rows two older events make a handoff replay the payout that a reissue has superseded. */
  lemma ReplayIsReachable(s: State, off: nat, amount: real)
    requires Init(s) && off in s.offs && s.offs[off].status.AwaitingCrypto? && s.offs[off].info.payable
    requires amount >= 0.0 && CreditCompletes(s.offs[off], amount)
    ensures var m := Operations.PerformAll(s, ReissueOps(off, amount));
            && off in m.offs
            && var steps := Operations.AllSteps(s, ReissueOps(off, amount)) + ReplaySteps(m, off);
               Legal(s, steps) && Replayed(Exec(s, steps), off)
  {
    var ops := ReissueOps(off, amount);
    var m := Operations.PerformAll(s, ops);
    ReissueHappens(s, off, amount);
    ReissueOpsLead(s, off, amount);
    ReplayFollows(s, Operations.AllSteps(s, ops), m, off);
  }
}
