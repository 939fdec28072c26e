/**
 What goes wrong without each clause of `Careful` and without serialised offramp operations: a lemma for any state of the
 right shape, and a run to such a state from fresh rows.
 */
module TransferGaps {
  import opened Wrappers
  import opened Ramps
  import opened DepositAmount
  import opened PairCheck
  import opened Transfer
  import opened TransferClaims
  import Text

  lemma RunCons(s: State, step: Step, rest: seq<Step>)
    requires Enabled(s, step) && Legal(Apply(s, step), rest)
    ensures Legal(s, [step] + rest) && Exec(s, [step] + rest) == Exec(Apply(s, step), rest)
  {
    assert ([step] + rest)[1..] == rest;
  }

  /** A run that settles the onramp internally and sends its crypto as well. */
  ghost predicate PaidTwice(s: State, steps: seq<Step>, on: nat) {
    Legal(s, steps) && Settled(Exec(s, steps), on) && Sent(Exec(s, steps), on)
  }

  lemma PaidTwiceCons(s: State, step: Step, rest: seq<Step>, on: nat)
    requires Enabled(s, step) && PaidTwice(Apply(s, step), rest, on)
    ensures PaidTwice(s, [step] + rest, on)
  {
    RunCons(s, step, rest);
  }

  lemma PaidTwiceConsThree(s: State, a: Step, b: Step, c: Step, rest: seq<Step>, on: nat)
    requires Enabled(s, a) && Enabled(Apply(s, a), b) && Enabled(Apply(Apply(s, a), b), c)
    requires PaidTwice(Apply(Apply(Apply(s, a), b), c), rest, on)
    ensures PaidTwice(s, [a] + ([b] + ([c] + rest)), on)
  {
    PaidTwiceCons(Apply(Apply(s, a), b), c, rest, on);
    PaidTwiceCons(Apply(s, a), b, [c] + rest, on);
    PaidTwiceCons(s, a, [b] + ([c] + rest), on);
  }

  /** A run after which two claims fund the same offramp. */
  ghost predicate ClaimedTwice(s: State, steps: seq<Step>) {
    Legal(s, steps) &&
    var claims := Exec(s, steps).claims;
    exists i, j :: 0 <= i < j < |claims| && claims[i].off == claims[j].off && claims[i].on != claims[j].on
  }

  lemma ClaimedTwiceCons(s: State, step: Step, rest: seq<Step>)
    requires Enabled(s, step) && ClaimedTwice(Apply(s, step), rest)
    ensures ClaimedTwice(s, [step] + rest)
  {
    RunCons(s, step, rest);
  }

  /** The steps by which an advance that holds `Sending` sends the crypto on-chain. */
  function SendSteps(pid: nat): seq<Step> {
    [InitiateStep(pid)] + ([SendStep(pid, Accepted)] + [])
  }

  lemma SendingSends(s: State, pid: nat)
    requires OnLive(s, pid) && s.onProcs[pid].phase.Sending?
    ensures Legal(s, SendSteps(pid)) && Exec(s, SendSteps(pid)).claims == s.claims
    ensures Sent(Exec(s, SendSteps(pid)), s.onProcs[pid].on)
  {
    var s1 := Apply(s, InitiateStep(pid));
    var s2 := Apply(s1, SendStep(pid, Accepted));
    RunCons(s1, SendStep(pid, Accepted), []);
    RunCons(s, InitiateStep(pid), [SendStep(pid, Accepted)] + []);
  }

  /**
   Overlapping advances of one onramp: both check the same offramp, the loser of the claim falls through to the
   on-chain send on its stale row.
   */
  lemma OverlappingAdvancesPayTwice(s: State, p: nat, q: nat)
    requires p != q && OnLive(s, p) && OnLive(s, q) && s.onProcs[p].on == s.onProcs[q].on
    requires s.onProcs[p].phase.Checked? && s.onProcs[q].phase.Checked?
    requires s.onProcs[p].phase.off == s.onProcs[q].phase.off && s.onProcs[p].phase.off in s.offs
    requires Settleable(s.offs[s.onProcs[p].phase.off].status)
    requires SendEligible(s.onProcs[q].row) && s.onProcs[q].row.info.sendable
    ensures var steps := [ClaimStep(p)] + ([ClaimStep(q)] + SendSteps(q));
            Legal(s, steps) && Settled(Exec(s, steps), s.onProcs[p].on) && Sent(Exec(s, steps), s.onProcs[p].on)
  {
    var s1 := Apply(s, ClaimStep(p));
    var s2 := Apply(s1, ClaimStep(q));
    assert s2.claims == s1.claims && s1.claims[|s.claims|].on == s.onProcs[p].on;
    SendingSends(s2, q);
    RunCons(s1, ClaimStep(q), SendSteps(q));
    RunCons(s, ClaimStep(p), [ClaimStep(q)] + SendSteps(q));
  }

  /** An idle onramp with its fiat in and one offramp to settle into starts as many advances as are asked for. */
  lemma AdvanceChecks(s: State, pid: nat, on: nat, now: int) returns (proc: OnProc)
    requires pid !in s.onProcs && on in s.ons && on in s.crypto && s.ons[on].status.FiatProcessed?
    requires IsFiatToFiat(Text.Trim(s.ons[on].info.flow)) && SoleMatch(s.ons[on], s.offs, now).Some?
    ensures Enabled(s, Advance(pid, on, now)) && Apply(s, Advance(pid, on, now)) == s.(onProcs := s.onProcs[pid := proc])
    ensures proc.on == on && proc.row == s.ons[on] && proc.phase.Checked? && proc.phase.off in s.offs
    ensures Some(proc.phase.off) == SoleMatch(s.ons[on], s.offs, now) && Settleable(s.offs[proc.phase.off].status)
  {
    proc := FirstOnProc(s.ons[on], on, s.offs, now).value;
  }

  function OverlapSteps(): seq<Step> {
    [ClaimStep(0)] + ([ClaimStep(1)] + SendSteps(1))
  }

  lemma BothCheckedPayTwice(s: State, on: nat, p: OnProc, q: OnProc)
    requires s.onProcs == map[0 := p, 1 := q] && on in s.ons && on in s.crypto && p.on == q.on == on
    requires p.phase.Checked? && q.phase.Checked? && p.phase.off == q.phase.off && p.phase.off in s.offs
    requires Settleable(s.offs[p.phase.off].status) && q.row.status.FiatProcessed? && q.row.info.sendable
    ensures PaidTwice(s, OverlapSteps(), on)
  {
    OverlappingAdvancesPayTwice(s, 0, 1);
  }

  lemma SecondAdvancePaysTwice(s: State, on: nat, p: OnProc, now: int)
    requires s.onProcs == map[0 := p] && on in s.ons && on in s.crypto && s.ons[on].status.FiatProcessed? && s.ons[on].info.sendable
    requires IsFiatToFiat(Text.Trim(s.ons[on].info.flow)) && p.on == on && p.phase.Checked?
    requires SoleMatch(s.ons[on], s.offs, now) == Some(p.phase.off)
    ensures PaidTwice(s, [Advance(1, on, now)] + OverlapSteps(), on)
  {
    var q := AdvanceChecks(s, 1, on, now);
    var s1 := Apply(s, Advance(1, on, now));
    assert s1.onProcs == map[0 := p, 1 := q];
    BothCheckedPayTwice(s1, on, p, q);
    PaidTwiceCons(s, Advance(1, on, now), OverlapSteps(), on);
  }

  /** The same for an idle onramp whose fiat is in: two advances, started one after the other. */
  lemma TwoAdvancesPayTwice(s: State, on: nat, now: int)
    requires s.onProcs == map[] && on in s.ons && on in s.crypto && s.ons[on].status.FiatProcessed? && s.ons[on].info.sendable
    requires IsFiatToFiat(Text.Trim(s.ons[on].info.flow)) && SoleMatch(s.ons[on], s.offs, now).Some?
    ensures PaidTwice(s, [Advance(0, on, now)] + ([Advance(1, on, now)] + OverlapSteps()), on)
  {
    var p := AdvanceChecks(s, 0, on, now);
    SecondAdvancePaysTwice(s.(onProcs := map[0 := p]), on, p, now);
    PaidTwiceCons(s, Advance(0, on, now), [Advance(1, on, now)] + OverlapSteps(), on);
  }

  /** A credit that read the row awaiting its funds. */
  function CreditStep(on: nat): Step {
    WriteOn(on, FiatCredited(OnStatus.AwaitingFunds))
  }

  function Credited(s: State, on: nat): State
    requires on in s.ons
  {
    s.(ons := s.ons[on := Onramp(s.ons[on].info, OnStatus.FiatProcessed, None)])
  }

  lemma CreditLands(s: State, on: nat)
    requires on in s.ons && on in s.crypto
    ensures Enabled(s, CreditStep(on)) && Apply(s, CreditStep(on)) == Credited(s, on)
  {
  }

  /** Fresh rows, with an onramp that has exactly `off` to settle into once its fiat is in. */
  predicate Ready(s: State, on: nat, off: nat, now: int) {
    Init(s) && on in s.ons && s.ons[on].status.AwaitingFunds? && s.ons[on].info.sendable &&
    IsFiatToFiat(Text.Trim(s.ons[on].info.flow)) && SoleMatch(s.ons[on], s.offs, now) == Some(off)
  }

  /** And from fresh rows: any onramp whose fiat lands while exactly one offramp pairs with it. */
  lemma OverlapIsReachable(s: State, on: nat, off: nat, now: int)
    requires Ready(s, on, off, now)
    ensures PaidTwice(s, [CreditStep(on)] + ([Advance(0, on, now)] + ([Advance(1, on, now)] + OverlapSteps())), on)
  {
    CreditLands(s, on);
    TwoAdvancesPayTwice(Credited(s, on), on, now);
    PaidTwiceCons(s, CreditStep(on), [Advance(0, on, now)] + ([Advance(1, on, now)] + OverlapSteps()), on);
  }

  /** Any number of onramps that each pay into the deposit of one offramp of the same business, nothing having happened yet. */
  function PairedState(userId: string, deposit: DepositInstructions, amount: real, ons: set<nat>): State {
    var on := OnrampInfo(userId, FIAT_TO_FIAT_FLOW,
      Destination(deposit.address, deposit.currency, deposit.network, deposit.memo, Some(amount), ""), true);
    var off := OfframpInfo(userId, "", FIAT_TO_FIAT_FLOW, deposit, Some(amount), deposit.currency, None, true);
    State(map o | o in ons :: Onramp(on, OnStatus.AwaitingFunds, None),
          map[0 := Offramp(off, OffStatus.AwaitingCrypto, BlankTimeline, BlankRefs)],
          map[], map[], map o | o in ons :: [], map[0 := []], 0, [])
  }

  lemma PairedStatePairs(userId: string, deposit: DepositInstructions, amount: real, ons: set<nat>, on: nat, now: int)
    requires Text.Clean(deposit.address) && deposit.address != "" && amount > 0.0 && WindowOpen(deposit, now) && on in ons
    ensures var s := PairedState(userId, deposit, amount, ons);
            Init(s) && IsFiatToFiat(Text.Trim(s.ons[on].info.flow)) && CheckPair(s.ons[on].info, s.offs[0], now) == Pair(amount)
  {
    Text.TrimFixesClean(deposit.address);
    Text.TrimFixesClean(FIAT_TO_FIAT_FLOW);
    SameAddressIsReflexive(deposit.address);
  }

  /** Such a state exists for every open deposit, and every onramp of it is ready. */
  lemma PairedStateIsReady(userId: string, deposit: DepositInstructions, amount: real, ons: set<nat>, on: nat, now: int)
    requires Text.Clean(deposit.address) && deposit.address != "" && amount > 0.0 && WindowOpen(deposit, now) && on in ons
    ensures Ready(PairedState(userId, deposit, amount, ons), on, 0, now)
  {
    var s := PairedState(userId, deposit, amount, ons);
    PairedStatePairs(userId, deposit, amount, ons, on, now);
    Text.TrimFixesClean(deposit.address);
    Text.TrimFixesClean("");
    assert Candidates(s.ons[on].info, s.offs) == {0};
    assert Matches(s.ons[on].info, s.offs, now) == {0};
  }

  /** So from fresh rows of every open deposit the crypto can be paid twice. */
  lemma OverlapHappens(userId: string, deposit: DepositInstructions, amount: real, now: int)
    requires Text.Clean(deposit.address) && deposit.address != "" && amount > 0.0 && WindowOpen(deposit, now)
    ensures var s := PairedState(userId, deposit, amount, {0});
            Init(s) && PaidTwice(s, [CreditStep(0)] + ([Advance(0, 0, now)] + ([Advance(1, 0, now)] + OverlapSteps())), 0)
  {
    PairedStateIsReady(userId, deposit, amount, {0}, 0, now);
    OverlapIsReachable(PairedState(userId, deposit, amount, {0}), 0, 0, now);
  }

  // ---------- after the claim ----------

  /** A change to one offramp row leaves every other row the match it was. */
  lemma OtherMatches(on: OnrampInfo, offs: map<nat, Offramp>, off: nat, row: Offramp, now: int, o: nat)
    requires off in offs && o != off
    ensures o in Matches(on, offs[off := row], now) <==> o in Matches(on, offs, now)
  {
    var offs' := offs[off := row];
    assert o in offs' <==> o in offs;
    if o in offs {
      assert offs'[o] == offs[o];
      assert o in Candidates(on, offs') <==> o in Candidates(on, offs);
    }
  }

  /** A claimed offramp is no match any more, and there was no other. */
  lemma ClaimLeavesNoMatch(row: Onramp, offs: map<nat, Offramp>, off: nat, funded: Offramp, now: int)
    requires SoleMatch(row, offs, now) == Some(off) && !Settleable(funded.status)
    ensures SoleMatch(row, offs[off := funded], now).None?
  {
    var ms, ms' := Matches(row.info, offs, now), Matches(row.info, offs[off := funded], now);
    assert ms == {off};
    assert off !in ms';
    forall o ensures o !in ms' {
      if o != off { OtherMatches(row.info, offs, off, funded, now, o); }
    }
  }

  /** The onramp's fiat is in and its advance has claimed the offramp. */
  function ClaimedState(s: State, on: nat, off: nat, amount: real): State
    requires on in s.ons && off in s.offs
  {
    var row := s.offs[off];
    Credited(s, on).(
      offs := s.offs[off := row.(status := OffStatus.CryptoConfirmed, timeline := SettledTimeline(row.timeline, on, amount))],
      onProcs := map[0 := OnProc(on, Onramp(s.ons[on].info, OnStatus.FiatProcessed, None), Claimed(0))],
      claims := [Claim(on, off, amount, 0)])
  }

  /** The same, with the amount that the check gives. */
  function AfterClaim(s: State, on: nat, off: nat, now: int): State
    requires Ready(s, on, off, now)
  {
    ClaimedState(s, on, off, CheckPair(s.ons[on].info, s.offs[off], now).amount)
  }

  function ClaimRun(on: nat, now: int, rest: seq<Step>): seq<Step> {
    [CreditStep(on)] + ([Advance(0, on, now)] + ([ClaimStep(0)] + rest))
  }

  /** The claim of an offramp that still waits, on an otherwise idle desk. */
  lemma ClaimWins(s1: State, on: nat, off: nat, amount: real)
    requires on in s1.ons && on in s1.crypto && off in s1.offs && Settleable(s1.offs[off].status) && s1.claims == []
    requires s1.onProcs == map[0 := OnProc(on, s1.ons[on], Checked(off, s1.offs[off], amount))]
    ensures Enabled(s1, ClaimStep(0))
    ensures var row := s1.offs[off];
            Apply(s1, ClaimStep(0)) == s1.(
              offs := s1.offs[off := row.(status := OffStatus.CryptoConfirmed, timeline := SettledTimeline(row.timeline, on, amount))],
              onProcs := map[0 := OnProc(on, s1.ons[on], Claimed(0))],
              claims := [Claim(on, off, amount, 0)])
  {
    assert Apply(s1, ClaimStep(0)).onProcs == map[0 := OnProc(on, s1.ons[on], Claimed(0))];
  }

  /** From the credited onramp on: check and claim. */
  lemma CreditedClaims(s: State, on: nat, off: nat, now: int, rest: seq<Step>)
    requires Ready(s, on, off, now)
    requires Legal(AfterClaim(s, on, off, now), rest)
    ensures var steps := [Advance(0, on, now)] + ([ClaimStep(0)] + rest);
            Legal(Credited(s, on), steps) && Exec(Credited(s, on), steps) == Exec(AfterClaim(s, on, off, now), rest)
  {
    var s1 := Credited(s, on);
    var amount := CheckPair(s.ons[on].info, s.offs[off], now).amount;
    var s2 := Apply(s1, Advance(0, on, now));
    assert s2 == s1.(onProcs := map[0 := OnProc(on, s1.ons[on], Checked(off, s1.offs[off], amount))]);
    ClaimWins(s2, on, off, amount);
    RunCons(s2, ClaimStep(0), rest);
    RunCons(s1, Advance(0, on, now), [ClaimStep(0)] + rest);
  }

  /** A fresh onramp gets there. */
  lemma FreshClaim(s: State, on: nat, off: nat, now: int, rest: seq<Step>)
    requires Ready(s, on, off, now)
    requires Legal(AfterClaim(s, on, off, now), rest)
    ensures Legal(s, ClaimRun(on, now, rest)) && Exec(s, ClaimRun(on, now, rest)) == Exec(AfterClaim(s, on, off, now), rest)
  {
    CreditLands(s, on);
    CreditedClaims(s, on, off, now, rest);
    RunCons(s, CreditStep(on), [Advance(0, on, now)] + ([ClaimStep(0)] + rest));
  }

  /** An idle onramp that may be sent and has no offramp to settle into is sent by its next advance. */
  lemma AdvanceSends(s: State, q: nat, on: nat, now: int)
    requires q !in s.onProcs && on in s.ons && on in s.crypto
    requires SendEligible(s.ons[on]) && s.ons[on].info.sendable && SoleMatch(s.ons[on], s.offs, now).None?
    ensures var steps := [Advance(q, on, now)] + SendSteps(q);
            Legal(s, steps) && Exec(s, steps).claims == s.claims && Sent(Exec(s, steps), on)
  {
    var s1 := Apply(s, Advance(q, on, now));
    assert s1 == PutOn(s, q, Some(OnProc(on, s.ons[on], Sending)));
    SendingSends(s1, q);
    RunCons(s, Advance(q, on, now), SendSteps(q));
  }

  /** An advance that throws after winning its claim leaves a row that a later advance sends on-chain. */
  lemma AbandonedClaimPaysTwice(s: State, p: nat, q: nat, now: int)
    requires OnLive(s, p) && s.onProcs[p].phase.Claimed? && Settled(s, s.onProcs[p].on)
    requires q !in s.onProcs
    requires var row := s.ons[s.onProcs[p].on];
             row.status.FiatProcessed? && row.info.sendable && SoleMatch(row, s.offs, now).None?
    ensures var on := s.onProcs[p].on;
            PaidTwice(s, [AbandonOn(p)] + ([Advance(q, on, now)] + SendSteps(q)), on)
  {
    var on := s.onProcs[p].on;
    AdvanceSends(Apply(s, AbandonOn(p)), q, on, now);
    PaidTwiceCons(s, AbandonOn(p), [Advance(q, on, now)] + SendSteps(q), on);
  }

  lemma FreshPaysTwice(s: State, on: nat, off: nat, now: int, rest: seq<Step>)
    requires Ready(s, on, off, now) && PaidTwice(AfterClaim(s, on, off, now), rest, on)
    ensures PaidTwice(s, ClaimRun(on, now, rest), on)
  {
    FreshClaim(s, on, off, now, rest);
  }

  /** The claim is won and on record, and there is nothing else to settle into. */
  predicate JustClaimed(s: State, on: nat, now: int) {
    && s.onProcs.Keys == {0} && OnLive(s, 0) && s.onProcs[0].on == on && s.onProcs[0].phase.Claimed?
    && s.ons[on].status.FiatProcessed? && s.ons[on].info.sendable && SoleMatch(s.ons[on], s.offs, now).None?
    && s.claims != [] && s.claims[0].on == on
  }

  lemma FreshIsJustClaimed(s: State, on: nat, off: nat, now: int)
    requires Ready(s, on, off, now)
    ensures JustClaimed(AfterClaim(s, on, off, now), on, now)
  {
    var s3 := AfterClaim(s, on, off, now);
    ClaimLeavesNoMatch(s.ons[on], s.offs, off, s3.offs[off], now);
  }

  lemma AbandonedClaimIsReachable(s: State, on: nat, off: nat, now: int)
    requires Ready(s, on, off, now)
    ensures PaidTwice(s, ClaimRun(on, now, [AbandonOn(0)] + ([Advance(1, on, now)] + SendSteps(1))), on)
  {
    FreshIsJustClaimed(s, on, off, now);
    AbandonedClaimPaysTwice(AfterClaim(s, on, off, now), 0, 1, now);
    FreshPaysTwice(s, on, off, now, [AbandonOn(0)] + ([Advance(1, on, now)] + SendSteps(1)));
  }

  /** The claim and the completion of the onramp are both done. */
  predicate JustSettled(s: State, on: nat, now: int) {
    && s.onProcs == map[] && on in s.ons && on in s.crypto
    && s.ons[on].status.Completed? && s.ons[on].receiptWithdrawalId.None? && s.ons[on].info.sendable
    && SoleMatch(s.ons[on], s.offs, now).None? && s.claims != [] && s.claims[0].on == on
  }

  lemma ClaimCompletes(s: State, on: nat, now: int)
    requires JustClaimed(s, on, now)
    ensures Enabled(s, CompleteStep(0)) && JustSettled(Apply(s, CompleteStep(0)), on, now)
  {
  }

  lemma SettledPaysTwice(s: State, on: nat, now: int, rest: seq<Step>)
    requires JustClaimed(s, on, now) && Enabled(s, CompleteStep(0)) && PaidTwice(Apply(s, CompleteStep(0)), rest, on)
    ensures PaidTwice(s, [CompleteStep(0)] + rest, on)
  {
    PaidTwiceCons(s, CompleteStep(0), rest, on);
  }

  /** The provider's older `onramp.failed` event reopens a settled onramp, which is then sent on-chain. */
  lemma LegacyFailurePaysTwice(s: State, q: nat, on: nat, now: int)
    requires on in s.ons && on in s.crypto && q !in s.onProcs && Settled(s, on)
    requires s.ons[on].status.Completed? && s.ons[on].receiptWithdrawalId.None? && s.ons[on].info.sendable
    requires SoleMatch(s.ons[on].(status := OnStatus.CryptoFailed), s.offs, now).None?
    ensures PaidTwice(s, [WriteOn(on, Legacy(OnStatus.CryptoFailed))] + ([Advance(q, on, now)] + SendSteps(q)), on)
  {
    var step := WriteOn(on, Legacy(OnStatus.CryptoFailed));
    var s1 := Apply(s, step);
    assert s1.ons[on] == s.ons[on].(status := OnStatus.CryptoFailed);
    AdvanceSends(s1, q, on, now);
    PaidTwiceCons(s, step, [Advance(q, on, now)] + SendSteps(q), on);
  }

  lemma LegacyAfterSettled(s: State, on: nat, now: int)
    requires JustSettled(s, on, now)
    ensures PaidTwice(s, [WriteOn(on, Legacy(OnStatus.CryptoFailed))] + ([Advance(0, on, now)] + SendSteps(0)), on)
  {
    assert SoleMatch(s.ons[on].(status := OnStatus.CryptoFailed), s.offs, now).None?;
    LegacyFailurePaysTwice(s, 0, on, now);
  }

  lemma LegacyFailureIsReachable(s: State, on: nat, off: nat, now: int)
    requires Ready(s, on, off, now)
    ensures PaidTwice(s, ClaimRun(on, now, [CompleteStep(0)] + (
              [WriteOn(on, Legacy(OnStatus.CryptoFailed))] + ([Advance(0, on, now)] + SendSteps(0)))), on)
  {
    var rest := [WriteOn(on, Legacy(OnStatus.CryptoFailed))] + ([Advance(0, on, now)] + SendSteps(0));
    FreshIsJustClaimed(s, on, off, now);
    var s3 := AfterClaim(s, on, off, now);
    ClaimCompletes(s3, on, now);
    LegacyAfterSettled(Apply(s3, CompleteStep(0)), on, now);
    SettledPaysTwice(s3, on, now, rest);
    FreshPaysTwice(s, on, off, now, [CompleteStep(0)] + rest);
  }

  /** A row from which steps that respect `CarefulOn` pay the onramp out: it can be sent, credited, or provisioned first. */
  predicate Reopened(row: Onramp) {
    SendEligible(row) || Creditable(row.status) || row.status.Created?
  }

  function PaySteps(q: nat, on: nat, now: int, row: Onramp): seq<Step> {
    if SendEligible(row) then [Advance(q, on, now)] + SendSteps(q)
    else if Creditable(row.status) then [WriteOn(on, FiatCredited(row.status))] + ([Advance(q, on, now)] + SendSteps(q))
    else [WriteOn(on, Provision(OnStatus.Created, true))] + ([CreditStep(on)] + ([Advance(q, on, now)] + SendSteps(q)))
  }

  lemma CreditedPaysTwice(s: State, q: nat, on: nat, now: int)
    requires on in s.ons && on in s.crypto && q !in s.onProcs && Settled(s, on)
    requires Creditable(s.ons[on].status) && s.ons[on].info.sendable && SoleMatch(s.ons[on], s.offs, now).None?
    ensures PaidTwice(s, [WriteOn(on, FiatCredited(s.ons[on].status))] + ([Advance(q, on, now)] + SendSteps(q)), on)
  {
    var step := WriteOn(on, FiatCredited(s.ons[on].status));
    var s1 := Apply(s, step);
    assert s1.ons[on] == Onramp(s.ons[on].info, OnStatus.FiatProcessed, None);
    SameMatch(s.ons[on], s1.ons[on], s.offs, now);
    AdvanceSends(s1, q, on, now);
    PaidTwiceCons(s, step, [Advance(q, on, now)] + SendSteps(q), on);
  }

  lemma ProvisionedPaysTwice(s: State, q: nat, on: nat, now: int)
    requires on in s.ons && on in s.crypto && q !in s.onProcs && Settled(s, on)
    requires s.ons[on].status.Created? && s.ons[on].info.sendable && SoleMatch(s.ons[on], s.offs, now).None?
    ensures PaidTwice(s, [WriteOn(on, Provision(OnStatus.Created, true))] + (
              [CreditStep(on)] + ([Advance(q, on, now)] + SendSteps(q))), on)
  {
    var step := WriteOn(on, Provision(OnStatus.Created, true));
    var s1 := Apply(s, step);
    assert s1.ons[on] == s.ons[on].(status := OnStatus.AwaitingFunds);
    SameMatch(s.ons[on], s1.ons[on], s.offs, now);
    CreditedPaysTwice(s1, q, on, now);
    PaidTwiceCons(s, step, [CreditStep(on)] + ([Advance(q, on, now)] + SendSteps(q)), on);
  }

  lemma ReopenedPaysTwice(s: State, q: nat, on: nat, now: int)
    requires on in s.ons && on in s.crypto && q !in s.onProcs && Settled(s, on)
    requires Reopened(s.ons[on]) && s.ons[on].info.sendable && SoleMatch(s.ons[on], s.offs, now).None?
    ensures PaidTwice(s, PaySteps(q, on, now, s.ons[on]), on)
  {
    if SendEligible(s.ons[on]) {
      AdvanceSends(s, q, on, now);
    } else if Creditable(s.ons[on].status) {
      CreditedPaysTwice(s, q, on, now);
    } else {
      ProvisionedPaysTwice(s, q, on, now);
    }
  }

  /**
   A write that was decided on a row read earlier reopens a completed onramp: no guard holds a credit back, and `Completed`
   is not among the funded statuses that hold a failure back.
   */
  lemma StaleWritePaysTwice(s: State, q: nat, on: nat, w: OnWrite, now: int)
    requires q !in s.onProcs && Settled(s, on) && Enabled(s, WriteOn(on, w))
    requires s.ons[on].status.Completed? && s.ons[on].info.sendable && SoleMatch(s.ons[on], s.offs, now).None?
    requires Reopened(ApplyOnWrite(s.ons[on], w))
    ensures PaidTwice(s, [WriteOn(on, w)] + PaySteps(q, on, now, ApplyOnWrite(s.ons[on], w)), on)
  {
    var row := ApplyOnWrite(s.ons[on], w);
    SameMatch(s.ons[on], row, s.offs, now);
    ReopenedPaysTwice(WithOn(s, on, row), q, on, now);
    PaidTwiceCons(s, WriteOn(on, w), PaySteps(q, on, now, row), on);
  }

  /** The single writes that reopen a settled onramp are exactly those that `CarefulOn` wants fresh, and the older events. */
  lemma StaleWriteReopensExactly(row: Onramp, w: OnWrite)
    requires row.status.Completed? && row.receiptWithdrawalId.None? && OnWriteEnabled(w) && Truthful([], w)
    ensures Reopened(ApplyOnWrite(row, w)) <==> NeedsFresh(w) || (w.Legacy? && !w.next.Completed?)
  {
  }

  lemma StaleAfterSettled(s: State, on: nat, w: OnWrite, now: int)
    requires JustSettled(s, on, now) && NeedsFresh(w) && OnWriteEnabled(w)
    ensures PaidTwice(s, [WriteOn(on, w)] + PaySteps(0, on, now, ApplyOnWrite(s.ons[on], w)), on)
  {
    StaleWriteReopensExactly(s.ons[on], w);
    StaleWritePaysTwice(s, 0, on, w, now);
  }

  /** From fresh rows: a credit, an expiry or a provisioning webhook that read the row before its fiat was processed. */
  lemma StaleWriteIsReachable(s: State, on: nat, off: nat, w: OnWrite, now: int)
    requires Ready(s, on, off, now) && NeedsFresh(w) && OnWriteEnabled(w) && w.seen == s.ons[on].status
    ensures PaidTwice(s, ClaimRun(on, now, [CompleteStep(0)] + (
              [WriteOn(on, w)] + PaySteps(0, on, now, ApplyOnWrite(Onramp(s.ons[on].info, OnStatus.Completed, None), w)))), on)
  {
    var rest := [WriteOn(on, w)] + PaySteps(0, on, now, ApplyOnWrite(Onramp(s.ons[on].info, OnStatus.Completed, None), w));
    FreshIsJustClaimed(s, on, off, now);
    var s3 := AfterClaim(s, on, off, now);
    ClaimCompletes(s3, on, now);
    CompletedRow(s3, on, now);
    StaleAfterSettled(Apply(s3, CompleteStep(0)), on, w, now);
    SettledPaysTwice(s3, on, now, rest);
    FreshPaysTwice(s, on, off, now, [CompleteStep(0)] + rest);
  }

  lemma CompletedRow(s: State, on: nat, now: int)
    requires JustClaimed(s, on, now) && Enabled(s, CompleteStep(0))
    ensures Apply(s, CompleteStep(0)).ons == s.ons[on := Onramp(s.ons[on].info, OnStatus.Completed, None)]
  {
  }

  /** Sent while an older event reported its fiat as just processed: the abandoned send is followed by a settlement. */
  lemma SentThenSettled(s: State, on: nat, now: int)
    requires s.onProcs == map[] && on in s.ons && Sent(s, on) && s.ons[on].status.FiatProcessed?
    requires IsFiatToFiat(Text.Trim(s.ons[on].info.flow)) && SoleMatch(s.ons[on], s.offs, now).Some?
    ensures PaidTwice(s, [Advance(0, on, now)] + ([ClaimStep(0)] + []), on)
  {
    var p := AdvanceChecks(s, 0, on, now);
    var s1 := Apply(s, Advance(0, on, now));
    var s2 := Apply(s1, ClaimStep(0));
    assert s2.claims[|s.claims|].on == on;
    PaidTwiceCons(s1, ClaimStep(0), [], on);
    PaidTwiceCons(s, Advance(0, on, now), [ClaimStep(0)] + [], on);
  }

  /** A resend up to the provider's answer. */
  lemma ResendCalls(s: State, on: nat, row: Onramp)
    requires s.onProcs == map[0 := OnProc(on, row, Sending)] && on in s.ons && on in s.crypto && s.crypto[on] == []
    requires !row.status.FiatProcessed?
    ensures Enabled(s, InitiateStep(0)) && Enabled(Apply(s, InitiateStep(0)), SendStep(0, Accepted))
    ensures Apply(Apply(s, InitiateStep(0)), SendStep(0, Accepted)) ==
              s.(onProcs := map[0 := OnProc(on, row, Answered(Some(s.nextId)))], crypto := s.crypto[on := [s.nextId]], nextId := s.nextId + 1)
  {
    var s1 := Apply(s, InitiateStep(0));
    assert s1.onProcs == map[0 := OnProc(on, row, Calling)];
    assert Apply(s1, SendStep(0, Accepted)).onProcs == map[0 := OnProc(on, row, Answered(Some(s.nextId)))];
  }

  /** A send in flight, on a row that an older event has meanwhile moved, that throws after its call. */
  lemma AbandonedSend(s: State, on: nat, row: Onramp, rest: seq<Step>)
    requires s.onProcs == map[0 := OnProc(on, row, Sending)] && on in s.ons && on in s.crypto && s.crypto[on] == []
    requires !row.status.FiatProcessed?
    requires PaidTwice(s.(onProcs := map[], crypto := s.crypto[on := [s.nextId]], nextId := s.nextId + 1), rest, on)
    ensures PaidTwice(s, [InitiateStep(0)] + ([SendStep(0, Accepted)] + ([AbandonOn(0)] + rest)), on)
  {
    ResendCalls(s, on, row);
    var s2 := s.(onProcs := map[0 := OnProc(on, row, Answered(Some(s.nextId)))], crypto := s.crypto[on := [s.nextId]], nextId := s.nextId + 1);
    assert Apply(s2, AbandonOn(0)).onProcs == map[];
    PaidTwiceCons(s2, AbandonOn(0), rest, on);
    PaidTwiceCons(Apply(s, InitiateStep(0)), SendStep(0, Accepted), [AbandonOn(0)] + rest, on);
    PaidTwiceCons(s, InitiateStep(0), [SendStep(0, Accepted)] + ([AbandonOn(0)] + rest), on);
  }

  function LegacySendRun(on: nat, now: int): seq<Step> {
    [InitiateStep(0)] + ([SendStep(0, Accepted)] + ([AbandonOn(0)] + ([Advance(0, on, now)] + ([ClaimStep(0)] + []))))
  }

  lemma LegacySendPaysTwice(s: State, on: nat, row: Onramp, now: int)
    requires s.onProcs == map[0 := OnProc(on, row, Sending)] && on in s.ons && on in s.crypto && s.crypto[on] == []
    requires !row.status.FiatProcessed? && s.ons[on].status.FiatProcessed?
    requires IsFiatToFiat(Text.Trim(s.ons[on].info.flow)) && SoleMatch(s.ons[on], s.offs, now).Some?
    ensures PaidTwice(s, LegacySendRun(on, now), on)
  {
    SentThenSettled(s.(onProcs := map[], crypto := s.crypto[on := [s.nextId]], nextId := s.nextId + 1), on, now);
    AbandonedSend(s, on, row, [Advance(0, on, now)] + ([ClaimStep(0)] + []));
  }

  /** An older event that reaches an unfunded onramp lands. */
  lemma LegacyLands(s: State, on: nat, next: OnStatus)
    requires on in s.ons && on in s.crypto && next in {OnStatus.FiatProcessed, OnStatus.CryptoFailed}
    requires !OnrampFundsReceived(s.ons[on]) && s.ons[on].receiptWithdrawalId.None?
    ensures Enabled(s, WriteOn(on, Legacy(next))) &&
            Apply(s, WriteOn(on, Legacy(next))) == s.(ons := s.ons[on := Onramp(s.ons[on].info, next, None)])
  {
  }

  lemma ResendStarts(s: State, on: nat, now: int)
    requires s.onProcs == map[] && on in s.ons && on in s.crypto && s.crypto[on] == []
    requires s.ons[on].status.CryptoFailed? && s.ons[on].receiptWithdrawalId.None? && s.ons[on].info.sendable
    ensures Enabled(s, Advance(0, on, now))
    ensures Apply(s, Advance(0, on, now)) == s.(onProcs := map[0 := OnProc(on, s.ons[on], Sending)])
  {
    assert FirstOnProc(s.ons[on], on, s.offs, now) == Some(OnProc(on, s.ons[on], Sending));
    assert Apply(s, Advance(0, on, now)).onProcs == map[0 := OnProc(on, s.ons[on], Sending)];
  }

  /** Why an older event must find the onramp idle: fresh rows, neither settled nor sent when each event arrives. */
  lemma LegacyDuringSendIsReachable(s: State, on: nat, off: nat, now: int)
    requires Ready(s, on, off, now)
    ensures PaidTwice(s, [WriteOn(on, Legacy(OnStatus.CryptoFailed))] + ([Advance(0, on, now)] + (
              [WriteOn(on, Legacy(OnStatus.FiatProcessed))] + LegacySendRun(on, now))), on)
  {
    var failed := Onramp(s.ons[on].info, OnStatus.CryptoFailed, None);
    LegacyLands(s, on, OnStatus.CryptoFailed);
    var s1 := s.(ons := s.ons[on := failed]);
    ResendStarts(s1, on, now);
    var s2 := s1.(onProcs := map[0 := OnProc(on, failed, Sending)]);
    LegacyLands(s2, on, OnStatus.FiatProcessed);
    var s3 := s2.(ons := s2.ons[on := Onramp(s.ons[on].info, OnStatus.FiatProcessed, None)]);
    SameMatch(s.ons[on], s3.ons[on], s.offs, now);
    LegacySendPaysTwice(s3, on, failed, now);
    PaidTwiceConsThree(s, WriteOn(on, Legacy(OnStatus.CryptoFailed)), Advance(0, on, now),
      WriteOn(on, Legacy(OnStatus.FiatProcessed)), LegacySendRun(on, now), on);
  }

  lemma SentLands(s: State, on: nat, row: Onramp, id: nat)
    requires s.onProcs == map[0 := OnProc(on, row, Answered(Some(id)))] && on in s.ons && on in s.crypto
    ensures Enabled(s, SentStep(0))
    ensures Apply(s, SentStep(0)) ==
              s.(ons := s.ons[on := Onramp(s.ons[on].info, OnStatus.CryptoPending, Some(id))], onProcs := map[])
  {
    assert Apply(s, SentStep(0)).onProcs == map[];
  }

  /** A resend that goes through. */
  lemma FinishedSend(s: State, on: nat, row: Onramp, rest: seq<Step>)
    requires s.onProcs == map[0 := OnProc(on, row, Sending)] && on in s.ons && on in s.crypto && s.crypto[on] == []
    requires !row.status.FiatProcessed?
    requires PaidTwice(s.(ons := s.ons[on := Onramp(s.ons[on].info, OnStatus.CryptoPending, Some(s.nextId))],
                          onProcs := map[], crypto := s.crypto[on := [s.nextId]], nextId := s.nextId + 1), rest, on)
    ensures PaidTwice(s, [InitiateStep(0)] + ([SendStep(0, Accepted)] + ([SentStep(0)] + rest)), on)
  {
    ResendCalls(s, on, row);
    var s2 := s.(onProcs := map[0 := OnProc(on, row, Answered(Some(s.nextId)))], crypto := s.crypto[on := [s.nextId]], nextId := s.nextId + 1);
    SentLands(s2, on, row, s.nextId);
    PaidTwiceCons(s2, SentStep(0), rest, on);
    PaidTwiceCons(Apply(s, InitiateStep(0)), SendStep(0, Accepted), [SentStep(0)] + rest, on);
    PaidTwiceCons(s, InitiateStep(0), [SendStep(0, Accepted)] + ([SentStep(0)] + rest), on);
  }

  function LegacyReopenRun(on: nat, now: int): seq<Step> {
    [WriteOn(on, Legacy(OnStatus.FiatProcessed))] + ([Advance(0, on, now)] + ([ClaimStep(0)] + []))
  }

  /** A sent onramp whose fiat is reported as just processed is settled as well. */
  lemma SentIsReopened(s: State, on: nat, now: int)
    requires s.onProcs == map[] && on in s.ons && Sent(s, on)
    requires IsFiatToFiat(Text.Trim(s.ons[on].info.flow)) && SoleMatch(s.ons[on], s.offs, now).Some?
    ensures PaidTwice(s, LegacyReopenRun(on, now), on)
  {
    var step := WriteOn(on, Legacy(OnStatus.FiatProcessed));
    var s1 := Apply(s, step);
    assert s1.ons[on] == s.ons[on].(status := OnStatus.FiatProcessed);
    SameMatch(s.ons[on], s1.ons[on], s.offs, now);
    SentThenSettled(s1, on, now);
    PaidTwiceCons(s, step, [Advance(0, on, now)] + ([ClaimStep(0)] + []), on);
  }

  lemma ResendThenReopened(s: State, on: nat, row: Onramp, now: int)
    requires s.onProcs == map[0 := OnProc(on, row, Sending)] && on in s.ons && on in s.crypto && s.crypto[on] == []
    requires !row.status.FiatProcessed?
    requires IsFiatToFiat(Text.Trim(s.ons[on].info.flow)) && SoleMatch(s.ons[on], s.offs, now).Some?
    ensures PaidTwice(s, [InitiateStep(0)] + ([SendStep(0, Accepted)] + ([SentStep(0)] + LegacyReopenRun(on, now))), on)
  {
    var s3 := s.(ons := s.ons[on := Onramp(s.ons[on].info, OnStatus.CryptoPending, Some(s.nextId))],
                 onProcs := map[], crypto := s.crypto[on := [s.nextId]], nextId := s.nextId + 1);
    SameMatch(s.ons[on], s3.ons[on], s.offs, now);
    SentIsReopened(s3, on, now);
    FinishedSend(s, on, row, LegacyReopenRun(on, now));
  }

  /** Why an older event must find the onramp unsent: fresh rows, idle and not settled when each event arrives. */
  lemma LegacyAfterSendIsReachable(s: State, on: nat, off: nat, now: int)
    requires Ready(s, on, off, now)
    ensures PaidTwice(s, [WriteOn(on, Legacy(OnStatus.CryptoFailed))] + ([Advance(0, on, now)] + (
              [InitiateStep(0)] + ([SendStep(0, Accepted)] + ([SentStep(0)] + LegacyReopenRun(on, now))))), on)
  {
    var failed := Onramp(s.ons[on].info, OnStatus.CryptoFailed, None);
    var rest := [InitiateStep(0)] + ([SendStep(0, Accepted)] + ([SentStep(0)] + LegacyReopenRun(on, now)));
    LegacyLands(s, on, OnStatus.CryptoFailed);
    var s1 := s.(ons := s.ons[on := failed]);
    ResendStarts(s1, on, now);
    var s2 := s1.(onProcs := map[0 := OnProc(on, failed, Sending)]);
    SameMatch(s.ons[on], failed, s.offs, now);
    ResendThenReopened(s2, on, failed, now);
    PaidTwiceCons(s1, Advance(0, on, now), rest, on);
    PaidTwiceCons(s, WriteOn(on, Legacy(OnStatus.CryptoFailed)), [Advance(0, on, now)] + rest, on);
  }

  /** The match depends on nothing of the onramp row that operations rewrite. */
  lemma SameMatch(row: Onramp, row': Onramp, offs: map<nat, Offramp>, now: int)
    requires row'.info == row.info
    ensures SoleMatch(row', offs, now) == SoleMatch(row, offs, now)
  {
  }

  /** A provisioning webhook that read a waiting offramp puts a claimed one back, and a second onramp claims it. */
  lemma StaleProvisioningClaimsTwice(s: State, w: nat, q: nat, k: nat)
    requires OffLive(s, w) && s.offProcs[w].phase.Writing? && s.offProcs[w].phase.write.ProvisionWrite?
    requires OnLive(s, q) && s.onProcs[q].phase.Checked? && s.onProcs[q].phase.off == s.offProcs[w].off
    requires k < |s.claims| && s.claims[k].off == s.offProcs[w].off && s.claims[k].on != s.onProcs[q].on
    ensures ClaimedTwice(s, [Finish(w)] + ([ClaimStep(q)] + []))
  {
    var s1 := Apply(s, Finish(w));
    var s2 := Apply(s1, ClaimStep(q));
    assert s2.claims[k].off == s2.claims[|s.claims|].off && s2.claims[k].on != s2.claims[|s.claims|].on;
    ClaimedTwiceCons(s1, ClaimStep(q), []);
    ClaimedTwiceCons(s, Finish(w), [ClaimStep(q)] + []);
  }

  function RaceSteps(): seq<Step> {
    [ClaimStep(0)] + ([Finish(0)] + ([ClaimStep(1)] + []))
  }

  /** A provisioning webhook has read the offramp, which still waits. */
  predicate WebhookUnderWay(s: State, off: nat) {
    && s.offProcs.Keys == {0} && OffLive(s, 0) && s.offProcs[0].off == off && s.offProcs[0].phase.Writing?
    && s.offProcs[0].phase.write.ProvisionWrite? && Settleable(s.offs[off].status) && s.claims == []
  }

  predicate HasChecked(s: State, pid: nat, on: nat, off: nat) {
    OnLive(s, pid) && s.onProcs[pid].on == on && s.onProcs[pid].phase.Checked? && s.onProcs[pid].phase.off == off
  }

  /** An idle onramp whose fiat is in and whose one match is `off`. */
  predicate AboutToCheck(s: State, on: nat, off: nat, now: int) {
    on in s.ons && on in s.crypto && s.ons[on].status.FiatProcessed? &&
    IsFiatToFiat(Text.Trim(s.ons[on].info.flow)) && SoleMatch(s.ons[on], s.offs, now) == Some(off)
  }

  /** Two onramps have checked one offramp whose provisioning webhook has read it. */
  lemma ProvisioningRace(s: State, on: nat, other: nat, off: nat)
    requires WebhookUnderWay(s, off) && HasChecked(s, 0, on, off) && HasChecked(s, 1, other, off) && on != other
    ensures ClaimedTwice(s, RaceSteps())
  {
    var s1 := Apply(s, ClaimStep(0));
    assert s1.claims[0].off == off && s1.claims[0].on == on && s1.onProcs[1] == s.onProcs[1];
    StaleProvisioningClaimsTwice(s1, 0, 1, 0);
    ClaimedTwiceCons(s, ClaimStep(0), [Finish(0)] + ([ClaimStep(1)] + []));
  }

  /** What a starting advance leaves as it is. */
  predicate SameRows(s: State, s': State) {
    s'.offs == s.offs && s'.ons == s.ons && s'.crypto == s.crypto && s'.offProcs == s.offProcs && s'.payouts == s.payouts && s'.claims == s.claims
  }

  lemma OneChecks(s: State, pid: nat, on: nat, off: nat, now: int)
    requires pid !in s.onProcs && AboutToCheck(s, on, off, now)
    ensures Enabled(s, Advance(pid, on, now))
    ensures var s' := Apply(s, Advance(pid, on, now));
            HasChecked(s', pid, on, off) && SameRows(s, s') && s'.onProcs == s.onProcs[pid := s'.onProcs[pid]]
  {
    var p := AdvanceChecks(s, pid, on, now);
  }

  lemma SameRowsStay(s: State, s': State, other: nat, off: nat, now: int)
    requires SameRows(s, s') && AboutToCheck(s, other, off, now) && WebhookUnderWay(s, off)
    ensures AboutToCheck(s', other, off, now) && WebhookUnderWay(s', off)
  {
  }

  lemma OtherChecksClaimTwice(s: State, on: nat, other: nat, off: nat, now: int)
    requires s.onProcs.Keys == {0} && WebhookUnderWay(s, off) && HasChecked(s, 0, on, off) && on != other
    requires AboutToCheck(s, other, off, now)
    ensures ClaimedTwice(s, [Advance(1, other, now)] + RaceSteps())
  {
    OneChecks(s, 1, other, off, now);
    ProvisioningRace(Apply(s, Advance(1, other, now)), on, other, off);
    ClaimedTwiceCons(s, Advance(1, other, now), RaceSteps());
  }

  /** Both onramps start their advances while the webhook is under way. */
  lemma BothCheckClaimTwice(s: State, s1: State, on: nat, other: nat, off: nat, now: int)
    requires Enabled(s, Advance(0, on, now)) && s1 == Apply(s, Advance(0, on, now)) && s1.onProcs.Keys == {0}
    requires HasChecked(s1, 0, on, off) && on != other && WebhookUnderWay(s1, off) && AboutToCheck(s1, other, off, now)
    ensures ClaimedTwice(s, [Advance(0, on, now)] + ([Advance(1, other, now)] + RaceSteps()))
  {
    OtherChecksClaimTwice(s1, on, other, off, now);
    ClaimedTwiceCons(s, Advance(0, on, now), [Advance(1, other, now)] + RaceSteps());
  }

  function BothCredited(s: State, on: nat, other: nat): State
    requires on in s.ons && other in s.ons
  {
    Credited(Credited(s, on), other)
  }

  /** The fiat of two fresh onramps lands. */
  lemma BothLand(s: State, on: nat, other: nat, rest: seq<Step>)
    requires on in s.ons && other in s.ons && on in s.crypto && other in s.crypto && on != other
    requires ClaimedTwice(BothCredited(s, on, other), rest)
    ensures ClaimedTwice(s, [CreditStep(on)] + ([CreditStep(other)] + rest))
  {
    CreditLands(s, on);
    CreditLands(Credited(s, on), other);
    ClaimedTwiceCons(Credited(s, on), CreditStep(other), rest);
    ClaimedTwiceCons(s, CreditStep(on), [CreditStep(other)] + rest);
  }

  /** A waiting offramp's provisioning webhook reads its row. */
  lemma ProvisioningStarts(s: State, off: nat)
    requires s.offProcs == map[] && off in s.offs && off in s.payouts && Settleable(s.offs[off].status)
    ensures Enabled(s, Start(0, off, ProvisionActive))
    ensures Apply(s, Start(0, off, ProvisionActive)) ==
              s.(offProcs := map[0 := OffProc(off, Writing(s.offs[off], ProvisionWrite(OffStatus.AwaitingCrypto)))])
  {
    assert Apply(s, Start(0, off, ProvisionActive)).offProcs ==
             map[0 := OffProc(off, Writing(s.offs[off], ProvisionWrite(OffStatus.AwaitingCrypto)))];
  }

  lemma CreditedAboutToCheck(s: State, s1: State, on: nat, other: nat, off: nat, now: int)
    requires Ready(s, on, off, now) && Ready(s, other, off, now) && on != other
    requires s1 == s.(offProcs := s1.offProcs) && WebhookUnderWay(s1, off)
    ensures var s3 := BothCredited(s1, on, other);
            s3.onProcs == map[] && WebhookUnderWay(s3, off) && AboutToCheck(s3, on, off, now) && AboutToCheck(s3, other, off, now)
  {
    var s3 := BothCredited(s1, on, other);
    SameMatch(s.ons[on], s3.ons[on], s.offs, now);
    SameMatch(s.ons[other], s3.ons[other], s.offs, now);
  }

  lemma FirstOfTwoChecks(s: State, on: nat, other: nat, off: nat, now: int)
    requires s.onProcs == map[] && WebhookUnderWay(s, off) && AboutToCheck(s, on, off, now) && AboutToCheck(s, other, off, now)
    ensures Enabled(s, Advance(0, on, now))
    ensures var s1 := Apply(s, Advance(0, on, now));
            s1.onProcs.Keys == {0} && HasChecked(s1, 0, on, off) && WebhookUnderWay(s1, off) && AboutToCheck(s1, other, off, now)
  {
    OneChecks(s, 0, on, off, now);
    SameRowsStay(s, Apply(s, Advance(0, on, now)), other, off, now);
  }

  function RaceRun(on: nat, other: nat, now: int): seq<Step> {
    [CreditStep(on)] + ([CreditStep(other)] + ([Advance(0, on, now)] + ([Advance(1, other, now)] + RaceSteps())))
  }

  lemma CreditedRace(s: State, s1: State, on: nat, other: nat, off: nat, now: int)
    requires Ready(s, on, off, now) && Ready(s, other, off, now) && on != other
    requires s1 == s.(offProcs := s1.offProcs) && WebhookUnderWay(s1, off)
    ensures ClaimedTwice(s1, RaceRun(on, other, now))
  {
    CreditedAboutToCheck(s, s1, on, other, off, now);
    var s3 := BothCredited(s1, on, other);
    FirstOfTwoChecks(s3, on, other, off, now);
    BothCheckClaimTwice(s3, Apply(s3, Advance(0, on, now)), on, other, off, now);
    BothLand(s1, on, other, [Advance(0, on, now)] + ([Advance(1, other, now)] + RaceSteps()));
  }

  /** So two fresh onramps that pay into one deposit can both end settled into it. */
  lemma StaleProvisioningIsReachable(s: State, on: nat, other: nat, off: nat, now: int)
    requires Ready(s, on, off, now) && Ready(s, other, off, now) && on != other
    ensures ClaimedTwice(s, [Start(0, off, ProvisionActive)] + RaceRun(on, other, now))
  {
    ProvisioningStarts(s, off);
    CreditedRace(s, Apply(s, Start(0, off, ProvisionActive)), on, other, off, now);
    ClaimedTwiceCons(s, Start(0, off, ProvisionActive), RaceRun(on, other, now));
  }

  /** Two onramps of the same business into one open deposit. */
  lemma TwoCanBeReady(userId: string, deposit: DepositInstructions, amount: real, now: int)
    requires Text.Clean(deposit.address) && deposit.address != "" && amount > 0.0 && WindowOpen(deposit, now)
    ensures var s := PairedState(userId, deposit, amount, {0, 1});
            Ready(s, 0, 0, now) && Ready(s, 1, 0, now)
  {
    PairedStateIsReady(userId, deposit, amount, {0, 1}, 0, now);
    PairedStateIsReady(userId, deposit, amount, {0, 1}, 1, now);
  }

  /**
   When a write erases the evidence that crypto arrived: exactly when it rebuilds the timeline from a snapshot
   that had none. A cancel that raced a credit is the plain case.
   */
  lemma EvidenceErasedExactly(row: Offramp, snap: Offramp, w: Write)
    requires CryptoEvidence(row.timeline)
    ensures CryptoEvidence(ApplyWrite(row, snap, w).timeline) <==>
              (w.CreditWrite? || w.FailWrite? || w.MarkFailedWrite? || w.ProvisionWrite? || CryptoEvidence(snap.timeline))
  {
  }

  /** A cancel and a credit that have read the same row, written in this order. */
  lemma CancelAfterCredit(s: State, off: nat, row: Offramp, amount: real)
    requires off in s.offs && off in s.payouts && s.offs[off] == row && !CryptoEvidence(row.timeline)
    requires s.offProcs == map[0 := OffProc(off, Writing(row, CancelWrite)), 1 := OffProc(off, Writing(row, CreditWrite(amount)))]
    ensures Enabled(s, Finish(1))
    ensures var m := Apply(s, Finish(1));
            off in m.offs && CryptoEvidence(m.offs[off].timeline) && Enabled(m, Finish(0)) &&
            var e := Apply(m, Finish(0));
            off in e.offs && e.offs[off].status.Cancelled? && !CryptoEvidence(e.offs[off].timeline)
  {
  }

  lemma BothRead(s: State, off: nat, amount: real)
    requires s.offProcs == map[] && off in s.offs && off in s.payouts
    requires OpEnabled(s.offs[off], Cancel) && OpEnabled(s.offs[off], Credit(amount))
    ensures Enabled(s, Start(0, off, Cancel)) && Enabled(Apply(s, Start(0, off, Cancel)), Start(1, off, Credit(amount)))
    ensures var row := s.offs[off];
            Apply(Apply(s, Start(0, off, Cancel)), Start(1, off, Credit(amount))) ==
              s.(offProcs := map[0 := OffProc(off, Writing(row, CancelWrite)), 1 := OffProc(off, Writing(row, CreditWrite(amount)))])
  {
    var row := s.offs[off];
    var s1 := Apply(s, Start(0, off, Cancel));
    assert s1.offProcs == map[0 := OffProc(off, Writing(row, CancelWrite))];
    assert Apply(s1, Start(1, off, Credit(amount))).offProcs ==
             map[0 := OffProc(off, Writing(row, CancelWrite)), 1 := OffProc(off, Writing(row, CreditWrite(amount)))];
  }

  function CreditDuringCancel(off: nat, amount: real): seq<Step> {
    [Start(0, off, Cancel)] + ([Start(1, off, Credit(amount))] + ([Finish(1)] + []))
  }

  lemma CreditDuringCancelRuns(s: State, off: nat, amount: real, s2: State)
    requires Enabled(s, Start(0, off, Cancel)) && Enabled(Apply(s, Start(0, off, Cancel)), Start(1, off, Credit(amount)))
    requires s2 == Apply(Apply(s, Start(0, off, Cancel)), Start(1, off, Credit(amount))) && Enabled(s2, Finish(1))
    ensures Legal(s, CreditDuringCancel(off, amount)) && Exec(s, CreditDuringCancel(off, amount)) == Apply(s2, Finish(1))
  {
    RunCons(s2, Finish(1), []);
    RunCons(Apply(s, Start(0, off, Cancel)), Start(1, off, Credit(amount)), [Finish(1)] + []);
    RunCons(s, Start(0, off, Cancel), [Start(1, off, Credit(amount))] + ([Finish(1)] + []));
  }

  /** From fresh rows: a cancel that reads before a credit lands and writes after it, whatever the credit. */
  lemma CancelRaceErasesCredit(s: State, off: nat, amount: real)
    requires Init(s) && off in s.offs && s.offs[off].status.AwaitingCrypto? && Expected(s.offs[off].info).Some? && amount >= 0.0
    ensures Legal(s, CreditDuringCancel(off, amount))
    ensures var m := Exec(s, CreditDuringCancel(off, amount));
            off in m.offs && CryptoEvidence(m.offs[off].timeline) && Enabled(m, Finish(0)) &&
            var e := Apply(m, Finish(0));
            off in e.offs && e.offs[off].status.Cancelled? && !CryptoEvidence(e.offs[off].timeline)
  {
    BothRead(s, off, amount);
    var s2 := Apply(Apply(s, Start(0, off, Cancel)), Start(1, off, Credit(amount)));
    CancelAfterCredit(s2, off, s.offs[off], amount);
    CreditDuringCancelRuns(s, off, amount, s2);
  }

  /** The status that a repository update writes when its guard has read `seen` and the row has since become `row`. */
  function StatusAfterStaleGuard(seen: Offramp, next: OffStatus): OffStatus {
    if BlocksOfframp(seen, next) then seen.status else next
  }

  /**
   The repository reads the row for its guard in one query and writes in another. An automatic failure reaches a
   funded row through that gap exactly when the guard's read saw no funds yet, or saw a failed row.
   */
  lemma GuardGapExactly(seen: Offramp, row: Offramp, next: AutoFailStatus)
    requires OfframpFundsReceived(row) && !OfframpAutoFail(row.status)
    ensures OfframpAutoFail(StatusAfterStaleGuard(seen, next)) <==>
              (!OfframpFundsReceived(seen) || OfframpAutoFail(seen.status))
    ensures seen == row ==> StatusAfterStaleGuard(seen, next) == row.status
  {
  }

  /** The same gap of an onramp update, whose guard has only the status to go by. */
  lemma OnrampGuardGapExactly(seen: Onramp, row: Onramp, next: OnStatus)
    requires OnrampAutoFail(next) && OnrampFundsReceived(row)
    ensures OnrampAutoFail(if BlocksOnramp(seen, next) then seen.status else next) <==> !OnrampFundsReceived(seen)
    ensures seen == row ==> BlocksOnramp(seen, next)
  {
  }
}
