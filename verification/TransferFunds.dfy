/** Once the customer's money is in, no automatic step fails or expires a ramp, and a claim overwrites no credit. */
module TransferFunds {
  import opened Ramps
  import opened DepositAmount
  import opened PairCheck
  import opened Transfer
  import opened TransferClaims
  import opened TransferPayouts
  import opened TransferRows

  /** The operator's explicit decision to fail a ramp, allowed even after funds. */
  predicate Override(s: State, step: Step)
    requires Enabled(s, step)
  {
    match step
    case WriteOn(_, w) => w.MarkFailed?
    case Finish(pid) => s.offProcs[pid].phase.write.MarkFailedWrite?
    case _ => false
  }

  /** The operator's failure mark is the only one. */
  lemma OverrideExactly(s: State, step: Step)
    requires Enabled(s, step)
    ensures Override(s, step) <==>
              (step.WriteOn? && step.write == MarkFailed) || (step.Finish? && s.offProcs[step.pid].phase.write == MarkFailedWrite)
  {
    hide Enabled;
  }

  /** No funded ramp of the first state has failed in the second. */
  predicate NoneFails(s: State, s': State) {
    && (forall on :: on in s.ons && OnrampFundsReceived(s.ons[on]) ==> on in s'.ons && !OnrampAutoFail(s'.ons[on].status))
    && (forall off :: off in s.offs && OfframpFundsReceived(s.offs[off]) && !OfframpAutoFail(s.offs[off].status) ==>
          off in s'.offs && !OfframpAutoFail(s'.offs[off].status))
  }

  /**
   In every state and for every step that is no operator override, a funded ramp does not move to an automatic
   failure status, however stale the row that the step had read: the guard looks at the current row.
   */
  lemma FundedNeverFails(s: State, step: Step)
    requires Enabled(s, step) && !Override(s, step)
    ensures NoneFails(s, Apply(s, step))
  {
    hide NoneFails;
    if step.Finish? {
      WriteNeverFails(s, step);
    } else if step.WriteOff? {
      EventNeverFails(s, step.off, step.event);
    } else if OffStep(step) || step.Advance? || step.ReadOn? || step.LookStep? {
      ReadNeverFails(s, step);
    } else {
      AdvanceNeverFails(s, step);
    }
  }

  lemma WriteNeverFails(s: State, step: Step)
    requires Enabled(s, step) && !Override(s, step) && step.Finish?
    ensures NoneFails(s, Apply(s, step))
  {
    FinishNeverFails(s, step.pid);
    assert Apply(s, step) == FinishOp(s, step.pid);
    hide FinishOp, Apply;
  }

  /** Steps that write no row. */
  lemma ReadNeverFails(s: State, step: Step)
    requires Enabled(s, step) && !step.Finish? && !step.WriteOff?
    requires OffStep(step) || step.Advance? || step.ReadOn? || step.LookStep?
    ensures NoneFails(s, Apply(s, step))
  {
    if OffStep(step) {
      OffStepFrame(s, step);
    } else {
      assert Apply(s, step).ons == s.ons && Apply(s, step).offs == s.offs;
    }
    hide Apply;
  }

  lemma EventNeverFails(s: State, off: nat, e: OffEvent)
    requires Enabled(s, WriteOff(off, e))
    ensures NoneFails(s, WithOff(s, off, ApplyOffEvent(s.offs[off], e)))
  {
  }

  lemma AdvanceNeverFails(s: State, step: Step)
    requires Enabled(s, step) && !Override(s, step) && !OffStep(step) && !step.Advance? && !step.ReadOn? && !step.LookStep?
    ensures NoneFails(s, Apply(s, step))
  {
  }

  ghost predicate NoOverride(s: State, steps: seq<Step>)
    requires Legal(s, steps)
    decreases |steps|
  {
    steps == [] || (!Override(s, steps[0]) && NoOverride(Apply(s, steps[0]), steps[1..]))
  }

  lemma {:induction false} RunNeverFails(s: State, steps: seq<Step>, off: nat)
    requires RowsInv(s) && ChainsInv(s) && Legal(s, steps) && SerialRun(s, steps) && NoOverride(s, steps)
    requires off in s.offs && CryptoEvidence(s.offs[off].timeline) && !OfframpAutoFail(s.offs[off].status)
    ensures off in Exec(s, steps).offs && !OfframpAutoFail(Exec(s, steps).offs[off].status)
    decreases |steps|
  {
    if steps != [] {
      FundedNeverFails(s, steps[0]);
      StepKeepsEvidence(s, steps[0], off);
      StepRows(s, steps[0]);
      StepChains(s, steps[0]);
      RunNeverFails(Apply(s, steps[0]), steps[1..], off);
    }
  }

  /**
   Over whole runs: once a serialised run has credited crypto to an offramp that has not failed, no continuation without
   an operator override ever expires or fails it.
   */
  lemma CreditedOfframpNeverFails(s: State, first: seq<Step>, rest: seq<Step>, off: nat)
    requires Init(s) && Legal(s, first) && SerialRun(s, first)
    requires Legal(Exec(s, first), rest) && SerialRun(Exec(s, first), rest) && NoOverride(Exec(s, first), rest)
    requires off in Exec(s, first).offs && CryptoEvidence(Exec(s, first).offs[off].timeline)
    requires !OfframpAutoFail(Exec(s, first).offs[off].status)
    ensures off in Exec(Exec(s, first), rest).offs && !OfframpAutoFail(Exec(Exec(s, first), rest).offs[off].status)
  {
    InitRows(s);
    RunRows(s, first);
    RunNeverFails(Exec(s, first), rest, off);
  }

  lemma FinishNeverFails(s: State, pid: nat)
    requires Enabled(s, Finish(pid)) && !s.offProcs[pid].phase.write.MarkFailedWrite?
    ensures var s' := FinishOp(s, pid);
            s'.ons == s.ons &&
            forall off :: off in s.offs && OfframpFundsReceived(s.offs[off]) && !OfframpAutoFail(s.offs[off].status) ==>
              off in s'.offs && !OfframpAutoFail(s'.offs[off].status)
  {
  }

  /** The guard refuses no more than that: an automatic failure takes effect exactly on unfunded rows. */
  lemma AutomaticFailureIsExact(row: Offramp, snap: Offramp, next: AutoFailStatus, on: Onramp, seen: OnStatus, onNext: OnStatus)
    requires AutoFailSource(seen, onNext)
    ensures ApplyWrite(row, snap, FailWrite(next)).status == if OfframpFundsReceived(row) then row.status else next
    ensures ApplyOnWrite(on, AutoFail(seen, onNext)).status == if OnrampFundsReceived(on) then on.status else onNext
    ensures ApplyOffEvent(row, FailedEvent).status == if OfframpFundsReceived(row) then row.status else OffStatus.Failed
  {
  }

  /**
   An onramp has no timeline to hold the evidence: a provisioning webhook that finds its fiat pending takes the status
   back, and then an automatic failure goes through. That is the one write of its kind, and only for the active account.
   */
  lemma ProvisioningUnfundsExactly(row: Onramp, active: bool)
    requires OnWriteEnabled(Provision(row.status, active)) && OnrampFundsReceived(row)
    ensures row.status.FiatPending?
    ensures var row' := ApplyOnWrite(row, Provision(row.status, active));
            ApplyOnWrite(row', AutoFail(OnStatus.AwaitingFunds, OnStatus.Expired)).status.Expired? <==> active
  {
  }

  // ---------- what a claim may overwrite ----------

  /** An offramp that may still be claimed has no credited crypto. */
  predicate WaitingIsUnfunded(s: State) {
    forall off :: off in s.offs && Waiting(s.offs[off].status) ==> !CryptoEvidence(s.offs[off].timeline)
  }

  lemma StepWaiting(s: State, step: Step)
    requires WaitingIsUnfunded(s) && Enabled(s, step) && CarefulOff(s, step)
    ensures WaitingIsUnfunded(Apply(s, step))
  {
    if step.Finish? {
      FinishWaiting(s, step.pid);
    } else if OffStep(step) {
      OffStepFrame(s, step);
    } else if step.Advance? || step.ReadOn? || step.LookStep? {
      assert Apply(s, step).offs == s.offs;
    }
  }

  lemma FinishWaiting(s: State, pid: nat)
    requires WaitingIsUnfunded(s) && Enabled(s, Finish(pid)) && CarefulOff(s, Finish(pid))
    ensures WaitingIsUnfunded(FinishOp(s, pid))
  {
  }

  lemma {:induction false} RunWaiting(s: State, steps: seq<Step>)
    requires WaitingIsUnfunded(s) && Legal(s, steps) && CarefulOffRun(s, steps)
    ensures WaitingIsUnfunded(Exec(s, steps))
    decreases |steps|
  {
    if steps != [] {
      StepWaiting(s, steps[0]);
      RunWaiting(Apply(s, steps[0]), steps[1..]);
    }
  }

  /**
   The claim tests the offramp's status alone, and that is enough: in every run that is careful with offramps, whatever
   happens to the onramps, a claim that wins finds a timeline without any credited crypto, although it writes the timeline
   of an older snapshot.
   */
  lemma ClaimOverwritesNoCredit(s: State, steps: seq<Step>, pid: nat)
    requires Init(s) && Legal(s, steps) && CarefulOffRun(s, steps) && Enabled(Exec(s, steps), ClaimStep(pid))
    ensures var e := Exec(s, steps);
            var off := e.onProcs[pid].phase.off;
            Settleable(e.offs[off].status) ==>
              PriorReceived(e.offs[off].timeline) == 0.0 && !CryptoEvidence(e.offs[off].timeline) &&
              CryptoEvidence(TryClaim(e, pid).offs[off].timeline)
  {
    RunWaiting(s, steps);
  }
}
