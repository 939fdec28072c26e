/**
 Safety of the crypto leg: an onramp is settled internally or sent on-chain, never both; an offramp is claimed at
 most once; and what is claimed is a complete deposit.
 */
module TransferClaims {
  import opened Wrappers
  import opened Ramps
  import opened DepositAmount
  import opened PairCheck
  import opened Transfer
  import Text

  ghost predicate OnBusy(s: State, on: nat) {
    exists pid :: pid in s.onProcs && s.onProcs[pid].on == on
  }

  /** The onramp's crypto was settled internally. */
  ghost predicate Settled(s: State, on: nat) {
    exists i :: 0 <= i < |s.claims| && s.claims[i].on == on
  }

  /** The provider holds an on-chain withdrawal of the onramp's crypto. */
  predicate Sent(s: State, on: nat) {
    on in s.crypto && s.crypto[on] != []
  }

  /** Statuses of an offramp whose deposit no onramp has claimed and no credit has reached. */
  predicate Waiting(status: OffStatus) {
    status.Created? || Settleable(status)
  }

  /** The status that a write tested must still be the row's: a stale one could take a row back before its fiat. */
  predicate NeedsFresh(w: OnWrite) {
    w.FiatCredited? || w.Provision? || (w.AutoFail? && w.next.Expired?)
  }

  /**
   What the steps on onramps must respect for settling and sending to exclude each other. Advances of one onramp are
   serialised; a credit, an expiry and a provisioning webhook write what they decided on the row as it is; an advance does
   not throw between winning its claim and completing the onramp; and the provider's older events reach an onramp only
   while it is idle and neither settled nor sent. Everything else interleaves freely.
   */
  ghost predicate CarefulOn(s: State, step: Step)
    requires Enabled(s, step)
  {
    match step
    case Advance(_, on, _) => !OnBusy(s, on)
    case ReadOn(_, on) => !OnBusy(s, on)
    case WriteOn(on, w) =>
      && (NeedsFresh(w) ==> w.seen == s.ons[on].status)
      && (w.Legacy? ==> !OnBusy(s, on) && !Settled(s, on) && !Sent(s, on))
    case AbandonOn(pid) => !s.onProcs[pid].phase.Claimed?
    case _ => true
  }

  /**
   What the steps on offramps must respect for claims to be single: a provisioning webhook finds the offramp still
   waiting, and so does the provider's older event that reports crypto received. Everything else interleaves freely.
   */
  predicate CarefulOff(s: State, step: Step)
    requires Enabled(s, step)
  {
    match step
    case WriteOff(off, e) => e.CryptoReceivedEvent? ==> Waiting(s.offs[off].status)
    case Finish(pid) =>
      s.offProcs[pid].phase.write.ProvisionWrite? ==> Settleable(s.offs[s.offProcs[pid].off].status)
    case _ => true
  }

  /** Both. Modules TransferGaps and OlderEvents give a run from fresh rows against each clause. */
  ghost predicate Careful(s: State, step: Step)
    requires Enabled(s, step)
  {
    CarefulOn(s, step) && CarefulOff(s, step)
  }

  ghost predicate CarefulOnRun(s: State, steps: seq<Step>)
    requires Legal(s, steps)
    decreases |steps|
  {
    steps == [] || (CarefulOn(s, steps[0]) && CarefulOnRun(Apply(s, steps[0]), steps[1..]))
  }

  predicate CarefulOffRun(s: State, steps: seq<Step>)
    requires Legal(s, steps)
    decreases |steps|
  {
    steps == [] || (CarefulOff(s, steps[0]) && CarefulOffRun(Apply(s, steps[0]), steps[1..]))
  }

  ghost predicate CarefulRun(s: State, steps: seq<Step>)
    requires Legal(s, steps)
  {
    CarefulOnRun(s, steps) && CarefulOffRun(s, steps)
  }

  // ---------- the invariant of onramps ----------

  /** Statuses an onramp can end in. */
  predicate Ended(status: OnStatus) {
    status.Completed? || status.FiatFailed?
  }

  predicate SendingStatus(status: OnStatus) {
    status.CryptoInitiated? || status.CryptoPending? || status.CryptoFailed?
  }

  predicate SentStatus(status: OnStatus) {
    SendingStatus(status) || Ended(status)
  }

  /** What still holds while an advance that may pay from `row` is in flight: other writes may have ended the onramp. */
  predicate MayPay(row: Onramp, status: OnStatus, held: seq<nat>) {
    if row.status.FiatProcessed? then (status.FiatProcessed? || Ended(status)) && held == [] else SentStatus(status)
  }

  predicate ProcOk(s: State, p: OnProc)
    requires p.on in s.ons && s.crypto.Keys == s.ons.Keys
  {
    match p.phase
    case Looking => SendEligible(p.row) ==> MayPay(p.row, s.ons[p.on].status, s.crypto[p.on])
    case Checked(_, _, _) => p.row.status.FiatProcessed? && MayPay(p.row, s.ons[p.on].status, s.crypto[p.on])
    case Claimed(i) => i < |s.claims| && s.claims[i].on == p.on
    case Sending => SendEligible(p.row) && MayPay(p.row, s.ons[p.on].status, s.crypto[p.on])
    case _ => SentStatus(s.ons[p.on].status)
  }

  predicate ProcsOk(s: State)
    requires s.crypto.Keys == s.ons.Keys
  {
    && (forall p :: p in s.onProcs ==> s.onProcs[p].on in s.ons && ProcOk(s, s.onProcs[p]))
    && (forall p, q :: p in s.onProcs && q in s.onProcs && s.onProcs[p].on == s.onProcs[q].on ==> p == q)
  }

  /** The advance is the one that settled its onramp, or one that will find nothing to pay. */
  predicate Harmless(p: OnProc) {
    p.phase.Claimed? || (p.phase.Looking? && !SendEligible(p.row))
  }

  predicate SettledOk(s: State)
    requires s.crypto.Keys == s.ons.Keys
  {
    && (forall i :: 0 <= i < |s.claims| ==> SettlementOk(s, s.claims[i]))
    && (forall i, p :: 0 <= i < |s.claims| && p in s.onProcs && s.onProcs[p].on == s.claims[i].on ==> Harmless(s.onProcs[p]))
    && (forall i, j :: 0 <= i < j < |s.claims| ==> s.claims[i].on != s.claims[j].on)
  }

  /** A settled onramp was not sent, and has ended unless the settling advance has yet to complete it. */
  predicate SettlementOk(s: State, c: Claim)
    requires s.crypto.Keys == s.ons.Keys
  {
    c.on in s.ons && s.crypto[c.on] == [] &&
    (Ended(s.ons[c.on].status) || (c.op in s.onProcs && s.onProcs[c.op].on == c.on && s.onProcs[c.op].phase.Claimed?))
  }

  predicate SentOk(s: State)
    requires s.crypto.Keys == s.ons.Keys
  {
    forall on :: on in s.ons ==> |s.crypto[on]| <= 1 && (s.crypto[on] != [] ==> SentStatus(s.ons[on].status))
  }

  predicate OnInv(s: State) {
    s.crypto.Keys == s.ons.Keys && ProcsOk(s) && SettledOk(s) && SentOk(s)
  }

  // ---------- onramps, step by step ----------

  predicate Unsettled(s: State, on: nat) {
    forall i :: 0 <= i < |s.claims| ==> s.claims[i].on != on
  }

  /** A new advance on an idle row. */
  lemma BeginInv(s: State, pid: nat, proc: OnProc)
    requires OnInv(s) && pid !in s.onProcs && proc.on in s.ons && !OnBusy(s, proc.on)
    requires !proc.phase.Claimed? && ProcOk(s, proc) && (Unsettled(s, proc.on) || Harmless(proc))
    ensures OnInv(PutOn(s, pid, Some(proc)))
  {
  }

  /** A step of an advance on its own unsettled onramp row and that onramp's withdrawals. */
  lemma OwnOnrampInv(s: State, s': State, pid: nat, on: nat)
    requires OnInv(s) && pid in s.onProcs && s.onProcs[pid].on == on && Unsettled(s, on)
    requires s'.claims == s.claims && s'.ons.Keys == s.ons.Keys && s'.crypto.Keys == s.crypto.Keys
    requires forall o :: o in s.ons && o != on ==> s'.ons[o] == s.ons[o] && s'.crypto[o] == s.crypto[o]
    requires forall p :: p in s.onProcs && p != pid ==> p in s'.onProcs && s'.onProcs[p] == s.onProcs[p]
    requires s'.onProcs.Keys <= s.onProcs.Keys
    requires pid in s'.onProcs ==> s'.onProcs[pid].on == on && on in s'.ons && ProcOk(s', s'.onProcs[pid])
    requires on in s.ons ==> |s'.crypto[on]| <= 1 && (s'.crypto[on] != [] ==> SentStatus(s'.ons[on].status))
    ensures OnInv(s')
  {
    OwnOnrampProcs(s, s', pid, on);
    forall i | 0 <= i < |s.claims| ensures s.claims[i].on != on && SettlementOk(s', s'.claims[i]) {
      assert SettlementOk(s, s.claims[i]);
    }
    assert SettledOk(s') && SentOk(s');
  }

  lemma OwnOnrampProcs(s: State, s': State, pid: nat, on: nat)
    requires s.crypto.Keys == s.ons.Keys && ProcsOk(s) && pid in s.onProcs && s.onProcs[pid].on == on
    requires s'.claims == s.claims && s'.ons.Keys == s.ons.Keys && s'.crypto.Keys == s.crypto.Keys
    requires forall o :: o in s.ons && o != on ==> s'.ons[o] == s.ons[o] && s'.crypto[o] == s.crypto[o]
    requires forall p :: p in s.onProcs && p != pid ==> p in s'.onProcs && s'.onProcs[p] == s.onProcs[p]
    requires s'.onProcs.Keys <= s.onProcs.Keys
    requires pid in s'.onProcs ==> s'.onProcs[pid].on == on && on in s'.ons && ProcOk(s', s'.onProcs[pid])
    ensures ProcsOk(s')
  {
    forall p | p in s'.onProcs ensures s'.onProcs[p].on in s'.ons && ProcOk(s', s'.onProcs[p]) {
      if p != pid { assert ProcOk(s, s.onProcs[p]) && s.onProcs[p].on != on; }
    }
  }

  /** An advance with something to pay is not on a settled onramp. */
  lemma PayingIsUnsettled(s: State, pid: nat)
    requires OnInv(s) && pid in s.onProcs && !Harmless(s.onProcs[pid])
    ensures Unsettled(s, s.onProcs[pid].on)
  {
  }

  /** An advance with something to pay moves on without touching any row. */
  lemma ContinueInv(s: State, pid: nat, proc: OnProc)
    requires OnInv(s) && pid in s.onProcs && s.onProcs[pid].on == proc.on && !Harmless(s.onProcs[pid])
    requires ProcOk(s, proc)
    ensures OnInv(PutOn(s, pid, Some(proc)))
  {
    PayingIsUnsettled(s, pid);
    OwnOnrampInv(s, PutOn(s, pid, Some(proc)), pid, proc.on);
  }

  lemma EndInv(s: State, pid: nat)
    requires OnInv(s) && (pid in s.onProcs ==> !s.onProcs[pid].phase.Claimed?)
    ensures OnInv(PutOn(s, pid, None))
  {
    var s' := PutOn(s, pid, None);
    forall i | 0 <= i < |s.claims| ensures SettlementOk(s', s'.claims[i]) {
      assert SettlementOk(s, s.claims[i]);
    }
    assert ProcsOk(s') && SettledOk(s') && SentOk(s');
  }

  /** A settled onramp that no advance is busy with has ended, so it is not sent. */
  lemma IdleSettledNotSendable(s: State, on: nat)
    requires OnInv(s) && on in s.ons && !OnBusy(s, on) && !Unsettled(s, on)
    ensures !SendEligible(s.ons[on])
  {
    var i :| 0 <= i < |s.claims| && s.claims[i].on == on;
    assert SettlementOk(s, s.claims[i]);
  }

  /** What an advance makes of the row it read, as long as that row may be paid from. */
  lemma FirstOnProcOk(s: State, row: Onramp, on: nat, offs: map<nat, Offramp>, now: int)
    requires on in s.ons && s.crypto.Keys == s.ons.Keys
    requires SendEligible(row) ==> MayPay(row, s.ons[on].status, s.crypto[on])
    ensures var proc := FirstOnProc(row, on, offs, now);
            proc.Some? ==> proc.value.on == on && !proc.value.phase.Claimed? && ProcOk(s, proc.value) && SendEligible(row)
  {
  }

  /** The row as it is may be paid from, if it says so. */
  lemma FreshRowMayPay(s: State, on: nat)
    requires OnInv(s) && on in s.ons
    ensures SendEligible(s.ons[on]) ==> MayPay(s.ons[on], s.ons[on].status, s.crypto[on])
  {
  }

  lemma ReadInv(s: State, pid: nat, on: nat)
    requires OnInv(s) && Enabled(s, ReadOn(pid, on)) && !OnBusy(s, on)
    ensures OnInv(ReadOnramp(s, pid, on))
  {
    FreshRowMayPay(s, on);
    if !Unsettled(s, on) { IdleSettledNotSendable(s, on); }
    BeginInv(s, pid, OnProc(on, s.ons[on], Looking));
  }

  lemma LookInv(s: State, pid: nat, now: int)
    requires OnInv(s) && Enabled(s, LookStep(pid, now))
    ensures OnInv(LookForMatch(s, pid, now))
  {
    var proc := s.onProcs[pid];
    assert ProcOk(s, proc);
    FirstOnProcOk(s, proc.row, proc.on, s.offs, now);
    var next := FirstOnProc(proc.row, proc.on, s.offs, now);
    if next.None? { EndInv(s, pid); } else { ContinueInv(s, pid, next.value); }
  }

  lemma AdvanceInv(s: State, pid: nat, on: nat, now: int)
    requires OnInv(s) && Enabled(s, Advance(pid, on, now)) && !OnBusy(s, on)
    ensures OnInv(BeginAdvance(s, pid, on, now))
  {
    ReadInv(s, pid, on);
    var s1 := ReadOnramp(s, pid, on);
    LookInv(s1, pid, now);
    AdvanceIsReadAndLook(s, pid, on, now);
  }

  /** The shorthand step is the two reads with nothing in between. */
  lemma AdvanceIsReadAndLook(s: State, pid: nat, on: nat, now: int)
    requires Enabled(s, Advance(pid, on, now))
    ensures Enabled(s, ReadOn(pid, on)) && Enabled(ReadOnramp(s, pid, on), LookStep(pid, now))
    ensures LookForMatch(ReadOnramp(s, pid, on), pid, now) == BeginAdvance(s, pid, on, now)
  {
    assert LookForMatch(ReadOnramp(s, pid, on), pid, now).onProcs == BeginAdvance(s, pid, on, now).onProcs;
  }

  /** The winner of a claim: the offramp is funded and the claim is on record. */
  lemma WonClaimInv(s: State, pid: nat)
    requires OnInv(s) && Enabled(s, ClaimStep(pid)) && Settleable(s.offs[s.onProcs[pid].phase.off].status)
    ensures OnInv(TryClaim(s, pid))
  {
    var s' := TryClaim(s, pid);
    var proc := s.onProcs[pid];
    assert ProcOk(s, proc);
    assert s'.claims == s.claims + [Claim(proc.on, proc.phase.off, proc.phase.amount, pid)];
    forall p | p in s'.onProcs ensures s'.onProcs[p].on in s'.ons && ProcOk(s', s'.onProcs[p]) {
      if p != pid { assert ProcOk(s, s.onProcs[p]); }
    }
    WonClaimSettled(s, s', pid);
  }

  lemma WonClaimSettled(s: State, s': State, pid: nat)
    requires OnInv(s) && pid in s.onProcs && s.onProcs[pid].phase.Checked? && ProcOk(s, s.onProcs[pid])
    requires s'.ons == s.ons && s'.crypto == s.crypto
    requires s'.onProcs == s.onProcs[pid := s.onProcs[pid].(phase := Claimed(|s.claims|))]
    requires |s'.claims| == |s.claims| + 1 && s'.claims[..|s.claims|] == s.claims
    requires s'.claims[|s.claims|].on == s.onProcs[pid].on && s'.claims[|s.claims|].op == pid
    ensures SettledOk(s')
  {
    var on, n := s.onProcs[pid].on, |s.claims|;
    PayingIsUnsettled(s, pid);
    forall i | 0 <= i < n ensures s'.claims[i] == s.claims[i] && s.claims[i].on != on && SettlementOk(s', s'.claims[i]) {
      assert SettlementOk(s, s.claims[i]);
    }
    assert SettlementOk(s', s'.claims[n]);
    forall i, p | 0 <= i <= n && p in s'.onProcs && s'.onProcs[p].on == s'.claims[i].on ensures Harmless(s'.onProcs[p]) {
      if p != pid && i < n { assert Harmless(s.onProcs[p]); }
    }
  }

  lemma ClaimInv(s: State, pid: nat)
    requires OnInv(s) && Enabled(s, ClaimStep(pid))
    ensures OnInv(TryClaim(s, pid))
  {
    var proc := s.onProcs[pid];
    assert ProcOk(s, proc);
    if Settleable(s.offs[proc.phase.off].status) {
      WonClaimInv(s, pid);
    } else if SendEligible(proc.row) && proc.row.info.sendable {
      ContinueInv(s, pid, OnProc(proc.on, proc.row, Sending));
    } else {
      EndInv(s, pid);
    }
  }

  lemma CompleteInv(s: State, pid: nat)
    requires OnInv(s) && Enabled(s, CompleteStep(pid))
    ensures OnInv(CompleteInternally(s, pid))
  {
    var s' := CompleteInternally(s, pid);
    var on := s.onProcs[pid].on;
    assert s'.ons[on].status.Completed?;
    forall p | p in s'.onProcs ensures s'.onProcs[p].on in s'.ons && ProcOk(s', s'.onProcs[p]) {
      assert s'.onProcs[p] == s.onProcs[p] && ProcOk(s, s.onProcs[p]) && s.onProcs[p].on != on;
    }
    forall i | 0 <= i < |s.claims| ensures SettlementOk(s', s'.claims[i]) {
      assert SettlementOk(s, s.claims[i]);
    }
    assert SettledOk(s') && SentOk(s');
  }

  /** An unsettled row moves on inside its own advance, to a status from which the crypto may be sent. */
  lemma MoveRowInv(s: State, pid: nat, proc: OnProc, row: Onramp)
    requires OnInv(s) && pid in s.onProcs && s.onProcs[pid].on == proc.on && !Harmless(s.onProcs[pid])
    requires proc.phase.Calling? && SendingStatus(row.status) && proc.on in s.ons
    ensures OnInv(WithOn(PutOn(s, pid, Some(proc)), proc.on, row))
  {
    PayingIsUnsettled(s, pid);
    OwnOnrampInv(s, WithOn(PutOn(s, pid, Some(proc)), proc.on, row), pid, proc.on);
  }

  lemma InitiateInv(s: State, pid: nat)
    requires OnInv(s) && Enabled(s, InitiateStep(pid))
    ensures OnInv(MarkInitiated(s, pid))
  {
    var proc := s.onProcs[pid];
    assert ProcOk(s, proc);
    var proc' := proc.(phase := Calling);
    if proc.row.status.FiatProcessed? {
      MoveRowInv(s, pid, proc', UpdateOn(s.ons[proc.on], OnStatus.CryptoInitiated, false));
    } else {
      ContinueInv(s, pid, proc');
    }
  }

  lemma SendInv(s: State, pid: nat, reply: Reply)
    requires OnInv(s) && Enabled(s, SendStep(pid, reply))
    ensures OnInv(SendCrypto(s, pid, reply))
  {
    var on := s.onProcs[pid].on;
    assert ProcOk(s, s.onProcs[pid]);
    assert |s.crypto[on]| <= 1;
    PayingIsUnsettled(s, pid);
    OwnOnrampInv(s, SendCrypto(s, pid, reply), pid, on);
  }

  lemma SentInv(s: State, pid: nat)
    requires OnInv(s) && Enabled(s, SentStep(pid))
    ensures OnInv(MarkSent(s, pid))
  {
    var on := s.onProcs[pid].on;
    assert ProcOk(s, s.onProcs[pid]);
    assert |s.crypto[on]| <= 1;
    PayingIsUnsettled(s, pid);
    OwnOnrampInv(s, MarkSent(s, pid), pid, on);
  }

  /** A write to one onramp row that suits whatever is in flight on it. */
  lemma RowWriteInv(s: State, on: nat, row: Onramp)
    requires OnInv(s) && on in s.ons
    requires s.crypto[on] != [] ==> SentStatus(row.status)
    requires forall p :: p in s.onProcs && s.onProcs[p].on == on ==> ProcOk(WithOn(s, on, row), s.onProcs[p])
    requires forall i :: 0 <= i < |s.claims| && s.claims[i].on == on ==> SettlementOk(WithOn(s, on, row), s.claims[i])
    ensures OnInv(WithOn(s, on, row))
  {
    var s' := WithOn(s, on, row);
    forall p | p in s'.onProcs ensures s'.onProcs[p].on in s'.ons && ProcOk(s', s'.onProcs[p]) {
      assert ProcOk(s, s.onProcs[p]);
    }
    forall i | 0 <= i < |s.claims| ensures SettlementOk(s', s'.claims[i]) {
      assert SettlementOk(s, s.claims[i]);
    }
    assert ProcsOk(s') && SettledOk(s') && SentOk(s');
  }

  /** What single writes never do to a row: take it back before its fiat, or, unless it was sent, out of its end. */
  lemma KeepsItsPlace(row: Onramp, w: OnWrite, held: seq<nat>)
    requires OnWriteEnabled(w) && Truthful(held, w) && !w.Legacy? && (NeedsFresh(w) ==> w.seen == row.status)
    ensures SentStatus(row.status) ==> SentStatus(ApplyOnWrite(row, w).status)
    ensures held == [] && Ended(row.status) ==> Ended(ApplyOnWrite(row, w).status)
    ensures held == [] && row.status.FiatProcessed? ==>
              ApplyOnWrite(row, w).status.FiatProcessed? || Ended(ApplyOnWrite(row, w).status)
  {
  }

  lemma WriteOnInv(s: State, on: nat, w: OnWrite)
    requires OnInv(s) && Enabled(s, WriteOn(on, w)) && CarefulOn(s, WriteOn(on, w))
    ensures OnInv(WithOn(s, on, ApplyOnWrite(s.ons[on], w)))
  {
    var row := ApplyOnWrite(s.ons[on], w);
    var s' := WithOn(s, on, row);
    if !w.Legacy? { KeepsItsPlace(s.ons[on], w, s.crypto[on]); }
    forall p | p in s.onProcs && s.onProcs[p].on == on ensures ProcOk(s', s.onProcs[p]) {
      assert ProcOk(s, s.onProcs[p]);
    }
    forall i | 0 <= i < |s.claims| && s.claims[i].on == on ensures SettlementOk(s', s.claims[i]) {
      assert SettlementOk(s, s.claims[i]);
    }
    RowWriteInv(s, on, row);
  }

  /** Steps that touch no onramp, no advance and no crypto withdrawal. */
  predicate OffStep(step: Step) {
    step.Start? || step.Load? || step.RereadStep? || step.CallStep? || step.AbandonOff? || step.LpMove? ||
    step.Finish? || step.WriteOff?
  }

  lemma OffStepFrame(s: State, step: Step)
    requires Enabled(s, step) && OffStep(step)
    ensures var s' := Apply(s, step);
            && s'.ons == s.ons && s'.onProcs == s.onProcs && s'.crypto == s.crypto && s'.claims == s.claims
            && (!step.Finish? && !step.WriteOff? ==> s'.offs == s.offs)
  {
  }

  lemma FrameOnInv(s: State, s': State)
    requires OnInv(s) && s'.ons == s.ons && s'.onProcs == s.onProcs && s'.crypto == s.crypto && s'.claims == s.claims
    ensures OnInv(s')
  {
    assert ProcsOk(s') && SettledOk(s') && SentOk(s');
  }

  lemma AdvanceStepInv(s: State, step: Step)
    requires OnInv(s) && Enabled(s, step) && CarefulOn(s, step) && !OffStep(step) && !step.WriteOn?
    ensures OnInv(Apply(s, step))
  {
    match step
    case Advance(pid, on, now) => AdvanceInv(s, pid, on, now);
    case ReadOn(pid, on) => ReadInv(s, pid, on);
    case LookStep(pid, now) => LookInv(s, pid, now);
    case ClaimStep(pid) => ClaimInv(s, pid);
    case CompleteStep(pid) => CompleteInv(s, pid);
    case InitiateStep(pid) => InitiateInv(s, pid);
    case SendStep(pid, reply) => SendInv(s, pid, reply);
    case SentStep(pid) => SentInv(s, pid);
    case AbandonOn(pid) => EndInv(s, pid);
  }

  lemma StepOnInv(s: State, step: Step)
    requires OnInv(s) && Enabled(s, step) && CarefulOn(s, step)
    ensures OnInv(Apply(s, step))
  {
    if OffStep(step) {
      OffStepFrame(s, step);
      FrameOnInv(s, Apply(s, step));
    } else if step.WriteOn? {
      WriteOnInv(s, step.on, step.write);
    } else {
      AdvanceStepInv(s, step);
    }
  }

  lemma {:induction false} RunOnInv(s: State, steps: seq<Step>)
    requires OnInv(s) && Legal(s, steps) && CarefulOnRun(s, steps)
    ensures OnInv(Exec(s, steps))
    decreases |steps|
  {
    if steps != [] {
      StepOnInv(s, steps[0]);
      RunOnInv(Apply(s, steps[0]), steps[1..]);
    }
  }

  // ---------- the invariant of claims ----------

  /** The onramp's own amount, within a cent of the quoted deposit of an offramp that awaits what the onramp pays. */
  predicate Funds(on: OnrampInfo, amount: real, off: OfframpInfo) {
    Pays(on, off) && on.dest.amount == Some(amount) && WithinTolerance(amount, off)
  }

  /** What no operation rewrites. */
  predicate SameInfos(ons: map<nat, Onramp>, ons': map<nat, Onramp>) {
    ons'.Keys == ons.Keys && forall o :: o in ons ==> ons'[o].info == ons[o].info
  }

  /** An advance has read its own onramp, and a check that passed is about an offramp that the onramp funds. */
  predicate CheckedOk(ons: map<nat, Onramp>, offs: map<nat, Offramp>, p: OnProc) {
    && p.on in ons && p.row.info == ons[p.on].info
    && (p.phase.Checked? ==>
          p.phase.off in offs && p.phase.snap.info == offs[p.phase.off].info && Funds(p.row.info, p.phase.amount, p.phase.snap.info))
  }

  predicate ClaimOk(ons: map<nat, Onramp>, offs: map<nat, Offramp>, c: Claim) {
    && c.on in ons && c.off in offs && !Waiting(offs[c.off].status)
    && Funds(ons[c.on].info, c.amount, offs[c.off].info)
  }

  predicate ClaimsInv(s: State) {
    && (forall p :: p in s.onProcs ==> CheckedOk(s.ons, s.offs, s.onProcs[p]))
    && (forall i :: 0 <= i < |s.claims| ==> ClaimOk(s.ons, s.offs, s.claims[i]))
    && (forall i, j :: 0 <= i < j < |s.claims| ==> s.claims[i].off != s.claims[j].off)
  }

  /** Steps that change no offramp and claim none. */
  lemma FrameClaims(s: State, s': State)
    requires ClaimsInv(s) && s'.offs == s.offs && s'.claims == s.claims && SameInfos(s.ons, s'.ons)
    requires forall p :: p in s'.onProcs ==> (p in s.onProcs && s'.onProcs[p] == s.onProcs[p]) || CheckedOk(s.ons, s.offs, s'.onProcs[p])
    ensures ClaimsInv(s')
  {
    forall p | p in s'.onProcs ensures CheckedOk(s'.ons, s'.offs, s'.onProcs[p]) {
      assert CheckedOk(s.ons, s.offs, s'.onProcs[p]);
    }
    forall i | 0 <= i < |s'.claims| ensures ClaimOk(s'.ons, s'.offs, s'.claims[i]) {
      assert ClaimOk(s.ons, s.offs, s.claims[i]);
    }
  }

  lemma MatchFunds(ons: map<nat, Onramp>, row: Onramp, on: nat, offs: map<nat, Offramp>, now: int)
    requires on in ons && row.info == ons[on].info
    ensures var proc := FirstOnProc(row, on, offs, now);
            proc.Some? ==> CheckedOk(ons, offs, proc.value)
  {
    var proc := FirstOnProc(row, on, offs, now);
    if proc.Some? && proc.value.phase.Checked? { PairsExactly(row.info, proc.value.phase.snap, now); }
  }

  lemma OnStepClaims(s: State, step: Step)
    requires ClaimsInv(s) && Enabled(s, step) && !OffStep(step) && !step.ClaimStep?
    ensures ClaimsInv(Apply(s, step))
  {
    var s' := Apply(s, step);
    OnStepLeavesClaims(s, step);
    OnStepKeepsInfos(s, step);
    forall p | p in s'.onProcs && !(p in s.onProcs && s'.onProcs[p] == s.onProcs[p]) ensures CheckedOk(s.ons, s.offs, s'.onProcs[p]) {
      MovedOnIsOk(s, step, p);
    }
    FrameClaims(s, s');
  }

  /** The advance that a step moves on. */
  lemma MovedOnIsOk(s: State, step: Step, p: nat)
    requires ClaimsInv(s) && Enabled(s, step) && !OffStep(step) && !step.ClaimStep?
    requires p in Apply(s, step).onProcs && !(p in s.onProcs && Apply(s, step).onProcs[p] == s.onProcs[p])
    ensures CheckedOk(s.ons, s.offs, Apply(s, step).onProcs[p])
  {
    OnStepLeavesClaims(s, step);
    if step.Advance? {
      MatchFunds(s.ons, s.ons[step.on], step.on, s.offs, step.now);
    } else if !step.ReadOn? {
      assert CheckedOk(s.ons, s.offs, s.onProcs[p]);
      if step.LookStep? { MatchFunds(s.ons, s.onProcs[p].row, s.onProcs[p].on, s.offs, step.now); }
    }
  }

  lemma OnStepKeepsInfos(s: State, step: Step)
    requires Enabled(s, step) && !OffStep(step) && !step.ClaimStep?
    ensures SameInfos(s.ons, Apply(s, step).ons)
  {
    if step.WriteOn? { WriteKeepsInfo(s.ons[step.on], step.write); }
    hide ApplyOnWrite, FirstOnProc, OnrampStatusAfter;
  }

  lemma WriteKeepsInfo(row: Onramp, w: OnWrite)
    ensures ApplyOnWrite(row, w).info == row.info
  {
  }

  lemma OnStepLeavesClaims(s: State, step: Step)
    requires Enabled(s, step) && !OffStep(step) && !step.ClaimStep?
    ensures var s' := Apply(s, step);
            && s'.offs == s.offs && s'.claims == s.claims
            && forall p :: p in s'.onProcs ==>
                 (p in s.onProcs && s'.onProcs[p] == s.onProcs[p]) ||
                 (step.Advance? && Some(s'.onProcs[p]) == FirstOnProc(s.ons[step.on], step.on, s.offs, step.now)) ||
                 (step.ReadOn? && s'.onProcs[p] == OnProc(step.on, s.ons[step.on], Looking)) ||
                 (step.LookStep? && p == step.pid &&
                  Some(s'.onProcs[p]) == FirstOnProc(s.onProcs[p].row, s.onProcs[p].on, s.offs, step.now)) ||
                 (p in s.onProcs && !s'.onProcs[p].phase.Checked? &&
                  s'.onProcs[p].on == s.onProcs[p].on && s'.onProcs[p].row == s.onProcs[p].row)
  {
    hide ApplyOnWrite, FirstOnProc, OnrampStatusAfter;
  }

  lemma ClaimStepClaims(s: State, pid: nat)
    requires ClaimsInv(s) && Enabled(s, ClaimStep(pid))
    ensures ClaimsInv(TryClaim(s, pid))
  {
    hide Funds;
    assert CheckedOk(s.ons, s.offs, s.onProcs[pid]);
    var s' := TryClaim(s, pid);
    if Settleable(s.offs[s.onProcs[pid].phase.off].status) {
      WonClaimClaims(s, s', pid);
    } else {
      FrameClaims(s, s');
    }
  }

  /** The claim is on an offramp that still waited, so no earlier claim is. */
  lemma WonClaimClaims(s: State, s': State, pid: nat)
    requires ClaimsInv(s) && pid in s.onProcs && s.onProcs[pid].phase.Checked? && CheckedOk(s.ons, s.offs, s.onProcs[pid])
    requires var off := s.onProcs[pid].phase.off;
             Settleable(s.offs[off].status) && s'.offs.Keys == s.offs.Keys &&
             (forall o :: o in s.offs && o != off ==> s'.offs[o] == s.offs[o]) &&
             s'.offs[off].status.CryptoConfirmed? && s'.offs[off].info == s.offs[off].info
    requires s'.ons == s.ons && s'.onProcs == s.onProcs[pid := s.onProcs[pid].(phase := Claimed(|s.claims|))]
    requires |s'.claims| == |s.claims| + 1 && s'.claims[..|s.claims|] == s.claims
    requires var c, p := s'.claims[|s.claims|], s.onProcs[pid];
             c.on == p.on && c.off == p.phase.off && c.amount == p.phase.amount
    ensures ClaimsInv(s')
  {
    hide Funds;
    assert forall i :: 0 <= i < |s.claims| ==> s'.claims[i] == s.claims[i];
    forall p | p in s'.onProcs ensures CheckedOk(s'.ons, s'.offs, s'.onProcs[p]) {
      if p != pid { assert CheckedOk(s.ons, s.offs, s.onProcs[p]); }
    }
    forall i | 0 <= i < |s'.claims| ensures ClaimOk(s'.ons, s'.offs, s'.claims[i]) {
      if i < |s.claims| { assert ClaimOk(s.ons, s.offs, s.claims[i]); }
    }
  }

  /** A step that changes one offramp row and does not put it back to waiting. */
  lemma OffRowClaims(s: State, s': State, off: nat)
    requires ClaimsInv(s) && off in s.offs && s'.ons == s.ons && s'.onProcs == s.onProcs && s'.claims == s.claims
    requires s'.offs.Keys == s.offs.Keys && s'.offs[off].info == s.offs[off].info
    requires forall o :: o in s.offs && o != off ==> s'.offs[o] == s.offs[o]
    requires Waiting(s'.offs[off].status) ==> Waiting(s.offs[off].status)
    ensures ClaimsInv(s')
  {
    forall p | p in s'.onProcs ensures CheckedOk(s'.ons, s'.offs, s'.onProcs[p]) {
      assert CheckedOk(s.ons, s.offs, s.onProcs[p]);
    }
    forall i | 0 <= i < |s'.claims| ensures ClaimOk(s'.ons, s'.offs, s'.claims[i]) {
      assert ClaimOk(s.ons, s.offs, s.claims[i]);
    }
  }

  lemma OffStepClaims(s: State, step: Step)
    requires ClaimsInv(s) && Enabled(s, step) && CarefulOff(s, step) && OffStep(step)
    ensures ClaimsInv(Apply(s, step))
  {
    hide Funds;
    OffStepFrame(s, step);
    if step.Finish? {
      OffRowClaims(s, Apply(s, step), s.offProcs[step.pid].off);
    } else if step.WriteOff? {
      OffRowClaims(s, Apply(s, step), step.off);
    } else {
      FrameClaims(s, Apply(s, step));
    }
  }

  lemma StepClaimsInv(s: State, step: Step)
    requires ClaimsInv(s) && Enabled(s, step) && CarefulOff(s, step)
    ensures ClaimsInv(Apply(s, step))
  {
    if step.ClaimStep? {
      ClaimStepClaims(s, step.pid);
    } else if OffStep(step) {
      OffStepClaims(s, step);
    } else {
      OnStepClaims(s, step);
    }
  }

  lemma {:induction false} RunClaimsInv(s: State, steps: seq<Step>)
    requires ClaimsInv(s) && Legal(s, steps) && CarefulOffRun(s, steps)
    ensures ClaimsInv(Exec(s, steps))
    decreases |steps|
  {
    if steps != [] {
      StepClaimsInv(s, steps[0]);
      RunClaimsInv(Apply(s, steps[0]), steps[1..]);
    }
  }

  // ---------- both ----------

  predicate Inv(s: State) {
    OnInv(s) && ClaimsInv(s)
  }

  lemma InitInv(s: State)
    requires Init(s)
    ensures Inv(s)
  {
  }

  lemma RunInv(s: State, steps: seq<Step>)
    requires Inv(s) && Legal(s, steps) && CarefulRun(s, steps)
    ensures Inv(Exec(s, steps))
  {
    RunOnInv(s, steps);
    RunClaimsInv(s, steps);
  }

  // ---------- the theorems ----------

  /**
   No run from fresh rows that is careful with onramps both settles an onramp internally and sends its crypto on-chain,
   the provider holds at most one crypto withdrawal per onramp, and an onramp is settled into at most one offramp.
   Whatever happens to the offramps is of no matter.
   */
  lemma NeverSettledAndSent(s: State, steps: seq<Step>)
    requires Init(s) && Legal(s, steps) && CarefulOnRun(s, steps)
    ensures var e := Exec(s, steps);
            forall on :: on in e.crypto ==>
              |e.crypto[on]| <= 1 && !(Settled(e, on) && Sent(e, on)) &&
              forall i, j :: 0 <= i < j < |e.claims| && e.claims[i].on == on ==> e.claims[j].on != on
  {
    InitInv(s);
    RunOnInv(s, steps);
    var e := Exec(s, steps);
    forall on | on in e.crypto && Settled(e, on) ensures !Sent(e, on) {
      var i :| 0 <= i < |e.claims| && e.claims[i].on == on;
      assert SettlementOk(e, e.claims[i]);
    }
  }

  /**
   Whatever happens to the onramps, overlapping advances and stale writes included: in every run that is careful with
   offramps each of them is claimed at most once, and by an onramp that pays what it awaits: the same business, two
   fiat-to-fiat flows, one address, asset, network and memo, and the onramp's own amount, within a cent of the quoted
   deposit, so that for a dollar stablecoin it passes the completeness test of on-chain credits.
   */
  lemma ClaimedOnceAndComplete(s: State, steps: seq<Step>)
    requires Init(s) && Legal(s, steps) && CarefulOffRun(s, steps)
    ensures var e := Exec(s, steps);
            && (forall i, j :: 0 <= i < j < |e.claims| ==> e.claims[i].off != e.claims[j].off)
            && forall i :: 0 <= i < |e.claims| ==> FundedBy(e, e.claims[i])
  {
    InitInv(s);
    RunClaimsInv(s, steps);
    var e := Exec(s, steps);
    forall i | 0 <= i < |e.claims| ensures FundedBy(e, e.claims[i]) {
      assert ClaimOk(e.ons, e.offs, e.claims[i]);
      ClaimIsFunded(e, e.claims[i]);
    }
  }

  /** The onramp of a claim pays what its offramp awaits, in full. */
  predicate FundedBy(e: State, c: Claim) {
    c.on in e.ons && c.off in e.offs &&
    var on, off := e.ons[c.on].info, e.offs[c.off].info;
    && on.userId == off.userId && Text.Trim(on.flow) == "FIAT_TO_FIAT" && Text.Trim(off.flow) == "FIAT_TO_FIAT"
    && SameAddress(Text.Trim(on.dest.walletAddress), Text.Trim(off.deposit.address))
    && Text.Norm(on.dest.currency) == Text.Norm(off.deposit.currency)
    && Text.Norm(on.dest.chain) == Text.Norm(off.deposit.network)
    && Text.Trim(on.dest.memo) == Text.Trim(off.deposit.memo)
    && on.dest.amount == Some(c.amount) && WithinTolerance(c.amount, off)
    && (Text.Norm(off.sourceCurrency) in {"USDT", "USDC", "USD"} ==> DepositComplete(c.amount, Expected(off).value, off.sourceCurrency))
  }

  lemma ClaimIsFunded(e: State, c: Claim)
    requires ClaimOk(e.ons, e.offs, c)
    ensures FundedBy(e, c)
  {
    var off := e.offs[c.off].info;
    if Text.Norm(off.sourceCurrency) in {"USDT", "USDC", "USD"} {
      WithinToleranceIsComplete(c.amount, Expected(off).value, off.sourceCurrency);
    }
  }
}
