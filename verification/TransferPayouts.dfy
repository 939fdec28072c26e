/**
 The fiat leg: an offramp's payouts at the provider form one chain with at most one live payout, in every
 interleaving.
 */
module TransferPayouts {
  import opened Transfer

  // ---------- every interleaving: one chain at the provider ----------

  function ChainKey(ps: seq<Payout>, i: nat): PayoutKey
    requires i < |ps|
  {
    if i == 0 then FirstKey else ReissueKey(ps[i - 1].id)
  }

  /** Each payout but the first reissues the one before it, and every payout but the last is failed or refunded. */
  predicate Chain(ps: seq<Payout>) {
    && (forall i {:trigger ChainKey(ps, i)} :: 0 <= i < |ps| ==> ps[i].key == ChainKey(ps, i))
    && (forall i, j :: 0 <= i < j < |ps| ==> ps[i].id != ps[j].id)
    && (forall i :: 0 <= i < |ps| - 1 ==> Reissueable(ps[i].state))
  }

  predicate Below(ps: seq<Payout>, bound: nat) {
    forall i :: 0 <= i < |ps| ==> ps[i].id < bound
  }

  /** A payout the provider has reported failed or refunded: it stays that way. */
  predicate Dead(ps: seq<Payout>, id: nat) {
    exists i :: 0 <= i < |ps| && ps[i].id == id && Reissueable(ps[i].state)
  }

  predicate ReissuesDead(s: State, proc: OffProc) {
    proc.off in s.payouts &&
    (proc.phase.Rereading? || proc.phase.CallingReissue? ==> Dead(s.payouts[proc.off], proc.phase.withdrawalId))
  }

  predicate ChainsInv(s: State) {
    && (forall off :: off in s.payouts ==> Chain(s.payouts[off]) && Below(s.payouts[off], s.nextId))
    && (forall p :: p in s.offProcs ==> ReissuesDead(s, s.offProcs[p]))
  }

  /** A dead payout either has its successor already or is the last of the chain. */
  lemma SuccessorOrLast(ps: seq<Payout>, id: nat)
    requires Chain(ps) && Dead(ps, id)
    ensures HasKey(ps, ReissueKey(id)) ||
            (ps != [] && ps[|ps| - 1].id == id && Reissueable(ps[|ps| - 1].state))
  {
    var i :| 0 <= i < |ps| && ps[i].id == id && Reissueable(ps[i].state);
    if i + 1 < |ps| {
      assert ps[i + 1].key == ChainKey(ps, i + 1);
    }
  }

  lemma CreateKeepsChain(ps: seq<Payout>, key: PayoutKey, freshId: nat)
    requires Chain(ps) && Below(ps, freshId)
    requires key.ReissueKey? ==> Dead(ps, key.previous)
    ensures Chain(CreatePayout(ps, key, freshId)) && Below(CreatePayout(ps, key, freshId), freshId + 1)
    ensures forall id :: Dead(ps, id) ==> Dead(CreatePayout(ps, key, freshId), id)
  {
    if key.ReissueKey? { SuccessorOrLast(ps, key.previous); }
    assert ps != [] ==> ps[0].key == ChainKey(ps, 0) == FirstKey;
    if !HasKey(ps, key) { AppendKeepsChain(ps, Payout(freshId, key, LpPending)); }
  }

  /** A new payout that reissues the dead last one, or is the first. */
  lemma AppendKeepsChain(ps: seq<Payout>, p: Payout)
    requires Chain(ps) && Below(ps, p.id)
    requires ps == [] ==> p.key == FirstKey
    requires ps != [] ==> p.key == ReissueKey(ps[|ps| - 1].id) && Reissueable(ps[|ps| - 1].state)
    ensures Chain(ps + [p]) && Below(ps + [p], p.id + 1)
    ensures forall id :: Dead(ps, id) ==> Dead(ps + [p], id)
  {
    var ps' := ps + [p];
    forall i | 0 <= i < |ps'| ensures ps'[i].key == ChainKey(ps', i) { AppendedKey(ps, p, i); }
    forall i, j | 0 <= i < j < |ps'| ensures ps'[i].id != ps'[j].id {
      if j == |ps| { assert ps[i].id < p.id; }
    }
    forall id | Dead(ps, id) ensures Dead(ps', id) {
      var i :| 0 <= i < |ps| && ps[i].id == id && Reissueable(ps[i].state);
      assert ps'[i] == ps[i];
    }
  }

  lemma AppendedKey(ps: seq<Payout>, p: Payout, i: nat)
    requires Chain(ps) && i <= |ps|
    requires if ps == [] then p.key == FirstKey else p.key == ReissueKey(ps[|ps| - 1].id)
    ensures (ps + [p])[i].key == ChainKey(ps + [p], i)
  {
    if i < |ps| { assert ps[i].key == ChainKey(ps, i); }
  }

  lemma MoveKeepsChain(ps: seq<Payout>, i: nat, next: LpState)
    requires Chain(ps) && i < |ps| && !Reissueable(ps[i].state)
    ensures Chain(ps[i := ps[i].(state := next)])
    ensures forall id :: Dead(ps, id) ==> Dead(ps[i := ps[i].(state := next)], id)
  {
    var ps' := ps[i := ps[i].(state := next)];
    forall k | 0 <= k < |ps'| ensures ps'[k].key == ChainKey(ps', k) {
      assert ps[k].key == ChainKey(ps, k);
    }
    forall id | Dead(ps, id) ensures Dead(ps', id) {
      var k :| 0 <= k < |ps| && ps[k].id == id && Reissueable(ps[k].state);
      assert ps'[k] == ps[k];
    }
  }

  lemma CallChains(s: State, pid: nat, reply: Reply)
    requires ChainsInv(s) && Enabled(s, CallStep(pid, reply))
    ensures ChainsInv(CallLp(s, pid, reply))
  {
    var s' := CallLp(s, pid, reply);
    var off := s.offProcs[pid].off;
    assert ReissuesDead(s, s.offProcs[pid]);
    CreateKeepsChain(s.payouts[off], CallKey(s.offProcs[pid].phase), s.nextId);
    forall p | p in s'.offProcs ensures ReissuesDead(s', s'.offProcs[p]) {
      if p != pid { assert ReissuesDead(s, s.offProcs[p]); }
    }
  }

  lemma MoveChains(s: State, off: nat, i: nat, next: LpState)
    requires ChainsInv(s) && Enabled(s, LpMove(off, i, next))
    ensures ChainsInv(MovePayout(s, off, i, next))
  {
    var s' := MovePayout(s, off, i, next);
    MoveKeepsChain(s.payouts[off], i, next);
    forall p | p in s'.offProcs ensures ReissuesDead(s', s'.offProcs[p]) {
      assert ReissuesDead(s, s.offProcs[p]);
    }
  }

  /** Steps that create no payout and move none, and start no reissue of a payout not known to be dead. */
  lemma FrameChains(s: State, s': State)
    requires ChainsInv(s) && s'.payouts == s.payouts && s'.nextId >= s.nextId
    requires forall p :: p in s'.offProcs ==>
               (p in s.offProcs && s'.offProcs[p] == s.offProcs[p]) || ReissuesDead(s, s'.offProcs[p])
    ensures ChainsInv(s')
  {
    forall p | p in s'.offProcs ensures ReissuesDead(s', s'.offProcs[p]) {
      if p in s.offProcs { assert ReissuesDead(s, s.offProcs[p]); }
    }
  }

  predicate OnStep(step: Step) {
    step.Advance? || step.ReadOn? || step.LookStep? || step.ClaimStep? || step.CompleteStep? || step.InitiateStep? || step.SendStep? ||
    step.SentStep? || step.AbandonOn? || step.WriteOn? || step.WriteOff?
  }

  lemma OnStepFrame(s: State, step: Step)
    requires Enabled(s, step) && OnStep(step)
    ensures var s' := Apply(s, step);
            s'.payouts == s.payouts && s'.offProcs == s.offProcs && s'.nextId >= s.nextId &&
            s'.offs.Keys == s.offs.Keys && (!step.ClaimStep? && !step.WriteOff? ==> s'.offs == s.offs)
  {
  }

  lemma LoadChains(s: State, pid: nat, loads: bool)
    requires ChainsInv(s) && Enabled(s, Load(pid, loads))
    ensures ChainsInv(LoadLp(s, pid, loads))
  {
    FrameChains(s, LoadLp(s, pid, loads));
  }

  lemma RereadChains(s: State, pid: nat)
    requires ChainsInv(s) && Enabled(s, RereadStep(pid))
    ensures ChainsInv(Reread(s, pid))
  {
    assert ReissuesDead(s, s.offProcs[pid]);
    FrameChains(s, Reread(s, pid));
  }

  lemma OffStepChains(s: State, step: Step)
    requires ChainsInv(s) && Enabled(s, step) && !OnStep(step)
    ensures ChainsInv(Apply(s, step))
  {
    match step
    case CallStep(pid, reply) => CallChains(s, pid, reply);
    case LpMove(off, i, next) => MoveChains(s, off, i, next);
    case Load(pid, loads) => LoadChains(s, pid, loads);
    case RereadStep(pid) => RereadChains(s, pid);
    case Start(_, _, _) => FrameChains(s, Apply(s, step));
    case Finish(_) => FrameChains(s, Apply(s, step));
    case AbandonOff(_) => FrameChains(s, Apply(s, step));
  }

  lemma StepChains(s: State, step: Step)
    requires ChainsInv(s) && Enabled(s, step)
    ensures ChainsInv(Apply(s, step))
  {
    if OnStep(step) {
      OnStepFrame(s, step);
      FrameChains(s, Apply(s, step));
    } else {
      OffStepChains(s, step);
    }
  }

  lemma {:induction false} RunChains(s: State, steps: seq<Step>)
    requires ChainsInv(s) && Legal(s, steps)
    ensures ChainsInv(Exec(s, steps))
    decreases |steps|
  {
    if steps != [] {
      StepChains(s, steps[0]);
      RunChains(Apply(s, steps[0]), steps[1..]);
    }
  }

  /**
   In every run, whatever the interleaving of handoffs, retries, reissues and provider moves, an offramp's
   payouts are one chain without repetition, so two different payouts are never both live.
   */
  lemma AtMostOneLivePayout(s: State, steps: seq<Step>, off: nat)
    requires Init(s) && Legal(s, steps) && off in Exec(s, steps).payouts
    ensures var ps := Exec(s, steps).payouts[off];
            Chain(ps) && forall i, j :: 0 <= i < |ps| && 0 <= j < |ps| && !Reissueable(ps[i].state) && !Reissueable(ps[j].state) ==> i == j
  {
    RunChains(s, steps);
  }
}
