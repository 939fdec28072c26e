/**
 What an offramp row records when the operations on it are serialised: the chain of its payouts, and every sign
 that its crypto arrived.
 */
module TransferRows {
  import opened Wrappers
  import opened Ramps
  import opened PairCheck
  import opened Transfer
  import opened TransferPayouts

  ghost predicate OffBusy(s: State, off: nat) {
    exists pid :: pid in s.offProcs && s.offProcs[pid].off == off
  }

  /** A row that no credit has reached and no payout is attached to. */
  predicate Blank(row: Offramp) {
    !CryptoEvidence(row.timeline) && ExpectedPayout(row).None?
  }

  /**
   Operations on one offramp row are serialised; different rows and the provider interleave freely. An older event that
   replaces the timeline reaches only a row whose timeline says nothing yet.
   */
  ghost predicate SerialStep(s: State, step: Step)
    requires Enabled(s, step)
  {
    match step
    case Start(_, off, _) => !OffBusy(s, off)
    case ClaimStep(pid) => !OffBusy(s, s.onProcs[pid].phase.off)
    case WriteOff(off, e) => !OffBusy(s, off) && (ReplacesTimeline(e) ==> Blank(s.offs[off]))
    case _ => true
  }

  /** No answer of the provider is lost and no offramp operation is abandoned. */
  predicate AnswerKept(step: Step) {
    !step.AbandonOff? && (step.CallStep? ==> !step.reply.Lost?)
  }

  ghost predicate SerialRun(s: State, steps: seq<Step>)
    requires Legal(s, steps)
    decreases |steps|
  {
    steps == [] || (SerialStep(s, steps[0]) && SerialRun(Apply(s, steps[0]), steps[1..]))
  }

  /** The payouts a row knows of: those it superseded, then the current one. */
  function Listed(row: Offramp): seq<nat> {
    row.refs.superseded + if row.refs.palremitWithdrawalId.Some? then [row.refs.palremitWithdrawalId.value] else []
  }

  /** The list is the chain, or the chain without a last payout whose answer has not been written. */
  predicate Recorded(ids: seq<nat>, listed: seq<nat>) {
    ids == listed || (|ids| == |listed| + 1 && ids[..|listed|] == listed)
  }

  predicate RowOk(row: Offramp) {
    && row.timeline.fiatWithdrawalId == row.refs.palremitWithdrawalId
    && (row.refs.palremitWithdrawalId.None? ==> row.refs.superseded == [])
    && (Settleable(row.status) ==> row.refs.palremitWithdrawalId.None?)
  }

  predicate WriteOk(ids: seq<nat>, row: Offramp, w: Write) {
    match w
    case FirstWrite(n) => Listed(row) == [] && ids == [n]
    case ReissueWrite(n, previous) => CurrentPayout(row) == Some(previous) && ids == Listed(row) + [n]
    case ProvisionWrite(_) => Settleable(row.status)
    case _ => true
  }

  /** A row and its payouts: the row is well-formed and its list is the chain, up to an unwritten last payout. */
  predicate RowState(row: Offramp, ps: seq<Payout>) {
    RowOk(row) && Recorded(PayoutIds(ps), Listed(row))
  }

  /** What a serialised operation in flight knows: its snapshot is the row. */
  predicate PhaseOk(row: Offramp, ps: seq<Payout>, phase: OffPhase) {
    match phase
    case CallingFirst(snap) => snap == row && row.timeline.fiatWithdrawalId.None?
    case LoadingLp(id) => CurrentPayout(row) == Some(id)
    case Rereading(id) => CurrentPayout(row) == Some(id)
    case CallingReissue(snap, id) => snap == row && CurrentPayout(row) == Some(id)
    case Writing(snap, w) => snap == row && WriteOk(PayoutIds(ps), row, w)
  }

  predicate CheckOk(phase: OnPhase) {
    phase.Checked? ==> RowOk(phase.snap) && Settleable(phase.snap.status)
  }

  predicate OpsInv(s: State)
    requires s.payouts.Keys == s.offs.Keys
  {
    && (forall p :: p in s.offProcs ==>
          s.offProcs[p].off in s.offs &&
          PhaseOk(s.offs[s.offProcs[p].off], s.payouts[s.offProcs[p].off], s.offProcs[p].phase))
    && (forall p, q :: p in s.offProcs && q in s.offProcs && s.offProcs[p].off == s.offProcs[q].off ==> p == q)
  }

  predicate RowsInv(s: State) {
    && s.payouts.Keys == s.offs.Keys
    && (forall off :: off in s.offs ==> RowState(s.offs[off], s.payouts[off]))
    && OpsInv(s)
    && (forall p :: p in s.onProcs ==> CheckOk(s.onProcs[p].phase))
  }

  // ---------- provider calls ----------

  lemma FindInSingleton(ps: seq<Payout>, key: PayoutKey)
    requires |ps| == 1 && ps[0].key == key
    ensures HasKey(ps, key) && FindKey(ps, key) == ps[0].id
  {
  }

  /** The first payout: whatever the provider already holds, the answer is the one payout of the chain. */
  lemma FirstCall(ps: seq<Payout>, freshId: nat)
    requires Chain(ps) && |ps| <= 1
    ensures var ps' := CreatePayout(ps, FirstKey, freshId);
            HasKey(ps', FirstKey) && PayoutIds(ps') == [FindKey(ps', FirstKey)]
  {
    var ps' := CreatePayout(ps, FirstKey, freshId);
    if |ps| == 1 { assert ps[0].key == ChainKey(ps, 0); }
    assert |ps'| == 1 && ps'[0].key == FirstKey;
    FindInSingleton(ps', FirstKey);
  }

  lemma FindKeyAt(ps: seq<Payout>, key: PayoutKey, i: nat)
    requires i < |ps| && ps[i].key == key
    requires forall j :: 0 <= j < i ==> ps[j].key != key
    ensures HasKey(ps, key) && FindKey(ps, key) == ps[i].id
  {
    if ps[0].key != key {
      FindKeyAt(ps[1..], key, i - 1);
    }
  }

  /** A reissue of the row's current payout: new or replayed, the answer is the chain's last payout. */
  lemma ReissueCall(ps: seq<Payout>, listed: seq<nat>, freshId: nat)
    requires Chain(ps) && listed != [] && Recorded(PayoutIds(ps), listed)
    requires Dead(ps, listed[|listed| - 1])
    ensures var key := ReissueKey(listed[|listed| - 1]);
            var ps' := CreatePayout(ps, key, freshId);
            HasKey(ps', key) && PayoutIds(ps') == listed + [FindKey(ps', key)]
  {
    var n := |listed|;
    var key := ReissueKey(listed[n - 1]);
    var ps' := CreatePayout(ps, key, freshId);
    assert PayoutIds(ps)[..n] == listed;
    assert ps[n - 1].id == listed[n - 1] by { assert PayoutIds(ps)[n - 1] == listed[n - 1]; }
    OnlySuccessorHasKey(ps, n);
    assert |ps'| == n + 1 && ps'[n].key == key && (forall j :: 0 <= j < n ==> ps'[j] == ps[j]);
    FindKeyAt(ps', key, n);
    assert PayoutIds(ps') == listed + [ps'[n].id];
  }

  /** In a chain the key that reissues payout n - 1 is that of payout n alone. */
  lemma OnlySuccessorHasKey(ps: seq<Payout>, n: nat)
    requires Chain(ps) && 0 < n <= |ps|
    ensures forall j :: 0 <= j < |ps| ==> (ps[j].key == ReissueKey(ps[n - 1].id) <==> j == n)
  {
    forall j | 0 <= j < |ps| ensures ps[j].key == ReissueKey(ps[n - 1].id) <==> j == n {
      assert ps[j].key == ChainKey(ps, j);
    }
  }

  // ---------- preservation ----------

  lemma InitRows(s: State)
    requires Init(s)
    ensures RowsInv(s)
  {
  }

  /** A step of the operation `pid` that changes at most its own row and that row's payouts. */
  lemma OwnRowMoves(s: State, s': State, off: nat, pid: nat)
    requires RowsInv(s) && pid in s.offProcs && s.offProcs[pid].off == off && off in s.offs
    requires s'.offs.Keys == s.offs.Keys && s'.payouts.Keys == s.payouts.Keys && s'.onProcs == s.onProcs
    requires forall o :: o in s.offs && o != off ==> s'.offs[o] == s.offs[o] && s'.payouts[o] == s.payouts[o]
    requires s'.offProcs.Keys <= s.offProcs.Keys
    requires forall p :: p in s'.offProcs && p != pid ==> s'.offProcs[p] == s.offProcs[p]
    requires RowState(s'.offs[off], s'.payouts[off])
    requires pid in s'.offProcs ==> s'.offProcs[pid].off == off && PhaseOk(s'.offs[off], s'.payouts[off], s'.offProcs[pid].phase)
    ensures RowsInv(s')
  {
    forall p | p in s'.offProcs
      ensures s'.offProcs[p].off in s'.offs &&
              PhaseOk(s'.offs[s'.offProcs[p].off], s'.payouts[s'.offProcs[p].off], s'.offProcs[p].phase)
    {
      if p != pid {
        var o := s.offProcs[p].off;
        assert o != off && s'.offs[o] == s.offs[o] && s'.payouts[o] == s.payouts[o];
      }
    }
    assert OpsInv(s');
  }

  /** A serialised write keeps the row well-formed and leaves it knowing its payouts. */
  lemma WriteKeepsRow(row: Offramp, ps: seq<Payout>, w: Write)
    requires RowState(row, ps) && WriteOk(PayoutIds(ps), row, w)
    ensures var row' := ApplyWrite(row, row, w);
            && RowState(row', ps)
            && (w.FirstWrite? || w.ReissueWrite? ==> PayoutIds(ps) == Listed(row'))
            && (!w.FirstWrite? && !w.ReissueWrite? ==> Listed(row') == Listed(row))
            && (CryptoEvidence(row.timeline) ==> CryptoEvidence(row'.timeline))
  {
  }

  lemma FinishRows(s: State, pid: nat)
    requires RowsInv(s) && Enabled(s, Finish(pid))
    ensures RowsInv(FinishOp(s, pid))
  {
    var proc := s.offProcs[pid];
    WriteKeepsRow(s.offs[proc.off], s.payouts[proc.off], proc.phase.write);
    OwnRowMoves(s, FinishOp(s, pid), proc.off, pid);
  }

  /** What the provider's answer adds to the chain is what the operation will write. */
  lemma CallFirstAnswer(s: State, pid: nat, reply: Reply)
    requires RowsInv(s) && ChainsInv(s) && Enabled(s, CallStep(pid, reply)) && s.offProcs[pid].phase.CallingFirst?
    ensures var s' := CallLp(s, pid, reply);
            var off := s.offProcs[pid].off;
            RowState(s.offs[off], s'.payouts[off]) &&
            (pid in s'.offProcs ==> PhaseOk(s.offs[off], s'.payouts[off], s'.offProcs[pid].phase))
  {
    var off := s.offProcs[pid].off;
    assert PhaseOk(s.offs[off], s.payouts[off], s.offProcs[pid].phase);
    FirstCall(s.payouts[off], s.nextId);
  }

  /** The same on one row: the reissue of its current, dead payout. */
  lemma ReissueAnswer(row: Offramp, ps: seq<Payout>, id: nat, freshId: nat, reply: Reply)
    requires RowState(row, ps) && Chain(ps) && Dead(ps, id) && CurrentPayout(row) == Some(id)
    ensures var ps' := PayoutsAfterCall(ps, ReissueKey(id), freshId, reply);
            var next := AfterCall(CallingReissue(row, id), ps', reply);
            RowState(row, ps') && (next.Some? ==> PhaseOk(row, ps', next.value))
  {
    assert Listed(row) != [] && Listed(row)[|Listed(row)| - 1] == id;
    ReissueCall(ps, Listed(row), freshId);
  }

  lemma CallReissueAnswer(s: State, pid: nat, reply: Reply)
    requires RowsInv(s) && ChainsInv(s) && Enabled(s, CallStep(pid, reply)) && s.offProcs[pid].phase.CallingReissue?
    ensures var s' := CallLp(s, pid, reply);
            var off := s.offProcs[pid].off;
            RowState(s.offs[off], s'.payouts[off]) &&
            (pid in s'.offProcs ==> PhaseOk(s.offs[off], s'.payouts[off], s'.offProcs[pid].phase))
  {
    var off := s.offProcs[pid].off;
    assert PhaseOk(s.offs[off], s.payouts[off], s.offProcs[pid].phase);
    assert ReissuesDead(s, s.offProcs[pid]);
    ReissueAnswer(s.offs[off], s.payouts[off], s.offProcs[pid].phase.withdrawalId, s.nextId, reply);
  }

  lemma CallFrame(s: State, pid: nat, reply: Reply)
    requires Enabled(s, CallStep(pid, reply)) && s.payouts.Keys == s.offs.Keys
    ensures var s' := CallLp(s, pid, reply);
            var off := s.offProcs[pid].off;
            && s'.offs == s.offs && s'.payouts.Keys == s.payouts.Keys && s'.onProcs == s.onProcs
            && (forall o :: o in s.payouts && o != off ==> s'.payouts[o] == s.payouts[o])
            && s'.offProcs.Keys <= s.offProcs.Keys
            && (forall p :: p in s.offProcs && p != pid ==> p in s'.offProcs && s'.offProcs[p] == s.offProcs[p])
            && (pid in s'.offProcs ==> s'.offProcs[pid].off == off)
  {
  }

  lemma CallRows(s: State, pid: nat, reply: Reply)
    requires RowsInv(s) && ChainsInv(s) && Enabled(s, CallStep(pid, reply))
    ensures RowsInv(CallLp(s, pid, reply))
  {
    CallFrame(s, pid, reply);
    if s.offProcs[pid].phase.CallingFirst? {
      CallFirstAnswer(s, pid, reply);
    } else {
      CallReissueAnswer(s, pid, reply);
    }
    OwnRowMoves(s, CallLp(s, pid, reply), s.offProcs[pid].off, pid);
  }

  /** Moving a payout changes no id, so nothing that rows and operations rely on. */
  lemma MoveKeepsIds(ps: seq<Payout>, i: nat, next: LpState)
    requires i < |ps|
    ensures PayoutIds(ps[i := ps[i].(state := next)]) == PayoutIds(ps)
  {
  }

  lemma MoveFrame(s: State, off: nat, i: nat, next: LpState)
    requires Enabled(s, LpMove(off, i, next))
    ensures var s' := MovePayout(s, off, i, next);
            && s'.offs == s.offs && s'.offProcs == s.offProcs && s'.onProcs == s.onProcs && s'.payouts.Keys == s.payouts.Keys
            && forall o :: o in s.payouts ==> PayoutIds(s'.payouts[o]) == PayoutIds(s.payouts[o])
  {
    MoveKeepsIds(s.payouts[off], i, next);
  }

  /** Rows and operations rely on the payouts' ids only. */
  lemma SameIdsRows(s: State, s': State)
    requires RowsInv(s) && s'.offs == s.offs && s'.offProcs == s.offProcs && s'.onProcs == s.onProcs
    requires s'.payouts.Keys == s.payouts.Keys
    requires forall o :: o in s.payouts ==> PayoutIds(s'.payouts[o]) == PayoutIds(s.payouts[o])
    ensures RowsInv(s')
  {
    forall off | off in s.offs ensures RowState(s'.offs[off], s'.payouts[off]) {
      assert RowState(s.offs[off], s.payouts[off]);
    }
    forall p | p in s.offProcs
      ensures PhaseOk(s'.offs[s.offProcs[p].off], s'.payouts[s.offProcs[p].off], s.offProcs[p].phase)
    {
      assert PhaseOk(s.offs[s.offProcs[p].off], s.payouts[s.offProcs[p].off], s.offProcs[p].phase);
    }
    assert OpsInv(s');
  }

  lemma MoveRows(s: State, off: nat, i: nat, next: LpState)
    requires RowsInv(s) && Enabled(s, LpMove(off, i, next))
    ensures RowsInv(MovePayout(s, off, i, next))
  {
    MoveFrame(s, off, i, next);
    SameIdsRows(s, MovePayout(s, off, i, next));
  }

  /** Steps that touch neither offramp rows nor payouts. */
  lemma FrameRows(s: State, s': State)
    requires RowsInv(s) && s'.offs == s.offs && s'.payouts == s.payouts
    requires OpsInv(s')
    requires forall p :: p in s'.onProcs ==> CheckOk(s'.onProcs[p].phase)
    ensures RowsInv(s')
  {
  }

  /** An operation moves on, or ends, without touching its row. */
  lemma PhaseRows(s: State, pid: nat, phase: Option<OffPhase>)
    requires RowsInv(s) && pid in s.offProcs
    requires var off := s.offProcs[pid].off;
             off in s.offs && (phase.Some? ==> PhaseOk(s.offs[off], s.payouts[off], phase.value))
    ensures RowsInv(PutOff(s, pid, s.offProcs[pid].off, phase))
  {
    var off := s.offProcs[pid].off;
    OwnRowMoves(s, PutOff(s, pid, off, phase), off, pid);
  }

  lemma LoadRows(s: State, pid: nat, loads: bool)
    requires RowsInv(s) && Enabled(s, Load(pid, loads))
    ensures RowsInv(LoadLp(s, pid, loads))
  {
    var proc := s.offProcs[pid];
    assert PhaseOk(s.offs[proc.off], s.payouts[proc.off], proc.phase);
    PhaseRows(s, pid, AfterLoad(s.payouts[proc.off], proc.phase.withdrawalId, loads));
  }

  lemma RereadRows(s: State, pid: nat)
    requires RowsInv(s) && Enabled(s, RereadStep(pid))
    ensures RowsInv(Reread(s, pid))
  {
    var proc := s.offProcs[pid];
    var row, id := s.offs[proc.off], proc.phase.withdrawalId;
    PhaseRows(s, pid, if CurrentPayout(row) == Some(id) then Some(CallingReissue(row, id)) else None);
  }

  lemma StartedPhase(row: Offramp, ps: seq<Payout>, op: OffOp)
    requires OpEnabled(row, op)
    ensures PhaseOk(row, ps, FirstPhase(row, op))
  {
  }

  /** A new operation on a row that no other operation works on. */
  lemma StartRows(s: State, pid: nat, off: nat, op: OffOp)
    requires RowsInv(s) && Enabled(s, Start(pid, off, op)) && !OffBusy(s, off)
    ensures RowsInv(StartOp(s, pid, off, op))
  {
    StartedPhase(s.offs[off], s.payouts[off], op);
    NewOpRows(s, pid, off, FirstPhase(s.offs[off], op));
  }

  lemma NewOpRows(s: State, pid: nat, off: nat, phase: OffPhase)
    requires RowsInv(s) && pid !in s.offProcs && off in s.offs && !OffBusy(s, off)
    requires PhaseOk(s.offs[off], s.payouts[off], phase)
    ensures RowsInv(PutOff(s, pid, off, Some(phase)))
  {
    var s' := PutOff(s, pid, off, Some(phase));
    forall p | p in s'.offProcs
      ensures s'.offProcs[p].off in s'.offs &&
              PhaseOk(s'.offs[s'.offProcs[p].off], s'.payouts[s'.offProcs[p].off], s'.offProcs[p].phase)
    {
      assert p != pid ==> s'.offProcs[p] == s.offProcs[p];
    }
    assert OpsInv(s');
    FrameRows(s, s');
  }

  /** A match waits, and its row is well-formed. */
  lemma MatchIsWaiting(s: State, row: Onramp, on: nat, now: int)
    requires RowsInv(s)
    ensures var proc := FirstOnProc(row, on, s.offs, now);
            proc.Some? ==> CheckOk(proc.value.phase)
  {
    assert forall o :: o in s.offs ==> RowState(s.offs[o], s.payouts[o]);
  }

  /** An advance begins, moves on or ends without touching a row. */
  lemma PutOnRows(s: State, pid: nat, proc: Option<OnProc>)
    requires RowsInv(s) && (proc.Some? ==> CheckOk(proc.value.phase))
    ensures RowsInv(PutOn(s, pid, proc))
  {
    var s' := PutOn(s, pid, proc);
    assert forall p :: p in s'.onProcs && p != pid ==> s'.onProcs[p] == s.onProcs[p];
    assert OpsInv(s');
    FrameRows(s, s');
  }

  lemma ReadRows(s: State, step: Step)
    requires RowsInv(s) && Enabled(s, step) && (step.Advance? || step.ReadOn? || step.LookStep?)
    ensures RowsInv(Apply(s, step))
  {
    match step
    case Advance(pid, on, now) =>
      MatchIsWaiting(s, s.ons[on], on, now);
      PutOnRows(s, pid, FirstOnProc(s.ons[on], on, s.offs, now));
    case ReadOn(pid, on) => PutOnRows(s, pid, Some(OnProc(on, s.ons[on], Looking)));
    case LookStep(pid, now) =>
      MatchIsWaiting(s, s.onProcs[pid].row, s.onProcs[pid].on, now);
      PutOnRows(s, pid, FirstOnProc(s.onProcs[pid].row, s.onProcs[pid].on, s.offs, now));
  }

  lemma ClaimRows(s: State, pid: nat)
    requires RowsInv(s) && Enabled(s, ClaimStep(pid)) && !OffBusy(s, s.onProcs[pid].phase.off)
    ensures RowsInv(TryClaim(s, pid))
  {
    var s' := TryClaim(s, pid);
    var off := s.onProcs[pid].phase.off;
    assert CheckOk(s.onProcs[pid].phase);
    assert RowState(s.offs[off], s.payouts[off]);
    assert s'.payouts == s.payouts && s'.offProcs == s.offProcs;
    assert forall o :: o in s.offs && o != off ==> s'.offs[o] == s.offs[o];
    assert Settleable(s.offs[off].status) ==> Listed(s'.offs[off]) == [] == Listed(s.offs[off]);
    assert RowState(s'.offs[off], s'.payouts[off]);
    assert OpsInv(s');
  }

  /** A serialised event keeps the row well-formed, its list and its evidence. */
  lemma EventKeepsRow(row: Offramp, ps: seq<Payout>, e: OffEvent)
    requires RowState(row, ps) && (ReplacesTimeline(e) ==> Blank(row))
    ensures var row' := ApplyOffEvent(row, e);
            RowState(row', ps) && Listed(row') == Listed(row) && (CryptoEvidence(row.timeline) ==> CryptoEvidence(row'.timeline))
  {
  }

  lemma EventRows(s: State, off: nat, e: OffEvent)
    requires RowsInv(s) && Enabled(s, WriteOff(off, e)) && SerialStep(s, WriteOff(off, e))
    ensures RowsInv(WithOff(s, off, ApplyOffEvent(s.offs[off], e)))
  {
    var s' := WithOff(s, off, ApplyOffEvent(s.offs[off], e));
    EventKeepsRow(s.offs[off], s.payouts[off], e);
    forall o | o in s'.offs ensures RowState(s'.offs[o], s'.payouts[o]) {
      assert RowState(s.offs[o], s.payouts[o]);
    }
    assert OpsInv(s');
  }

  lemma OtherOnRows(s: State, step: Step)
    requires RowsInv(s) && Enabled(s, step) && OnStep(step) && !step.ClaimStep? && !step.WriteOff?
    requires !step.Advance? && !step.ReadOn? && !step.LookStep?
    ensures RowsInv(Apply(s, step))
  {
    OnStepFrame(s, step);
    FrameRows(s, Apply(s, step));
  }

  lemma OnStepRows(s: State, step: Step)
    requires RowsInv(s) && Enabled(s, step) && SerialStep(s, step) && OnStep(step)
    ensures RowsInv(Apply(s, step))
  {
    if step.Advance? || step.ReadOn? || step.LookStep? {
      ReadRows(s, step);
    } else if step.ClaimStep? {
      ClaimRows(s, step.pid);
    } else if step.WriteOff? {
      EventRows(s, step.off, step.event);
    } else {
      OtherOnRows(s, step);
    }
  }

  lemma OffStepRows(s: State, step: Step)
    requires RowsInv(s) && ChainsInv(s) && Enabled(s, step) && SerialStep(s, step) && !OnStep(step)
    ensures RowsInv(Apply(s, step))
  {
    match step
    case Start(pid, off, op) => StartRows(s, pid, off, op);
    case CallStep(pid, reply) => CallRows(s, pid, reply);
    case Finish(pid) => FinishRows(s, pid);
    case LpMove(off, i, next) => MoveRows(s, off, i, next);
    case Load(pid, loads) => LoadRows(s, pid, loads);
    case RereadStep(pid) => RereadRows(s, pid);
    case AbandonOff(pid) => PhaseRows(s, pid, None);
  }

  lemma StepRows(s: State, step: Step)
    requires RowsInv(s) && ChainsInv(s) && Enabled(s, step) && SerialStep(s, step)
    ensures RowsInv(Apply(s, step))
  {
    if OnStep(step) { OnStepRows(s, step); } else { OffStepRows(s, step); }
  }

  lemma {:induction false} RunRows(s: State, steps: seq<Step>)
    requires RowsInv(s) && ChainsInv(s) && Legal(s, steps) && SerialRun(s, steps)
    ensures RowsInv(Exec(s, steps)) && ChainsInv(Exec(s, steps))
    decreases |steps|
  {
    if steps != [] {
      StepRows(s, steps[0]);
      StepChains(s, steps[0]);
      RunRows(Apply(s, steps[0]), steps[1..]);
    }
  }

  // ---------- when every answer arrives, the list is exact ----------

  predicate WritesPayout(phase: OffPhase) {
    phase.Writing? && (phase.write.FirstWrite? || phase.write.ReissueWrite?)
  }

  ghost predicate PayoutInFlight(s: State, off: nat) {
    exists p :: p in s.offProcs && s.offProcs[p].off == off && WritesPayout(s.offProcs[p].phase)
  }

  ghost predicate Exact(s: State)
    requires s.payouts.Keys == s.offs.Keys
  {
    forall off :: off in s.offs ==> PayoutIds(s.payouts[off]) == Listed(s.offs[off]) || PayoutInFlight(s, off)
  }

  ghost predicate ExactState(s: State) {
    s.payouts.Keys == s.offs.Keys && Exact(s)
  }

  /** Only the operation `pid` moves: payouts in flight on other rows stay in flight. */
  lemma OthersInFlight(s: State, s': State, pid: nat, off: nat)
    requires pid in s.offProcs && s.offProcs[pid].off != off && PayoutInFlight(s, off)
    requires forall p :: p in s.offProcs && p != pid ==> p in s'.offProcs && s'.offProcs[p] == s.offProcs[p]
    ensures PayoutInFlight(s', off)
  {
    var p :| p in s.offProcs && s.offProcs[p].off == off && WritesPayout(s.offProcs[p].phase);
    assert p in s'.offProcs;
  }

  /** A step of the operation `pid` on its own row, after which that row is exact or its payout in flight. */
  lemma OwnRowExact(s: State, s': State, pid: nat, off: nat)
    requires ExactState(s) && pid in s.offProcs && s.offProcs[pid].off == off && s'.payouts.Keys == s'.offs.Keys == s.offs.Keys
    requires forall p :: p in s.offProcs && p != pid ==> p in s'.offProcs && s'.offProcs[p] == s.offProcs[p]
    requires forall o :: o in s.offs && o != off ==> s'.offs[o] == s.offs[o] && s'.payouts[o] == s.payouts[o]
    requires off in s.offs ==> PayoutIds(s'.payouts[off]) == Listed(s'.offs[off]) || PayoutInFlight(s', off)
    ensures ExactState(s')
  {
    forall o | o in s'.offs ensures PayoutIds(s'.payouts[o]) == Listed(s'.offs[o]) || PayoutInFlight(s', o) {
      if o != off && PayoutInFlight(s, o) { OthersInFlight(s, s', pid, o); }
    }
  }

  /** The row of an operation that is not writing a payout is exact. */
  lemma NotWritingIsExact(s: State, pid: nat)
    requires RowsInv(s) && Exact(s) && OffLive(s, pid) && !WritesPayout(s.offProcs[pid].phase)
    ensures PayoutIds(s.payouts[s.offProcs[pid].off]) == Listed(s.offs[s.offProcs[pid].off])
  {
    assert OpsInv(s);
  }

  lemma FinishFrame(s: State, pid: nat)
    requires Enabled(s, Finish(pid))
    ensures var s', proc := FinishOp(s, pid), s.offProcs[pid];
            && s'.payouts == s.payouts && s'.offs.Keys == s.offs.Keys
            && s'.offs[proc.off] == ApplyWrite(s.offs[proc.off], proc.phase.snap, proc.phase.write)
            && (forall o :: o in s.offs && o != proc.off ==> s'.offs[o] == s.offs[o])
            && (forall p :: p in s.offProcs && p != pid ==> p in s'.offProcs && s'.offProcs[p] == s.offProcs[p])
  {
  }

  /** A serialised write leaves the row listing its whole chain. */
  lemma WriteIsExact(row: Offramp, ps: seq<Payout>, w: Write)
    requires RowState(row, ps) && WriteOk(PayoutIds(ps), row, w)
    requires !w.FirstWrite? && !w.ReissueWrite? ==> PayoutIds(ps) == Listed(row)
    ensures PayoutIds(ps) == Listed(ApplyWrite(row, row, w))
  {
    WriteKeepsRow(row, ps, w);
  }

  lemma FinishExact(s: State, pid: nat)
    requires RowsInv(s) && Enabled(s, Finish(pid)) && Exact(s)
    ensures ExactState(FinishOp(s, pid))
  {
    var proc := s.offProcs[pid];
    var row, ps := s.offs[proc.off], s.payouts[proc.off];
    assert PhaseOk(row, ps, proc.phase) && RowState(row, ps);
    if !WritesPayout(proc.phase) { NotWritingIsExact(s, pid); }
    WriteIsExact(row, ps, proc.phase.write);
    FinishFrame(s, pid);
    OwnRowExact(s, FinishOp(s, pid), pid, proc.off);
  }

  lemma CallExact(s: State, pid: nat, reply: Reply)
    requires RowsInv(s) && Enabled(s, CallStep(pid, reply)) && Exact(s) && !reply.Lost?
    ensures ExactState(CallLp(s, pid, reply))
  {
    var s' := CallLp(s, pid, reply);
    var off := s.offProcs[pid].off;
    CallFrame(s, pid, reply);
    NotWritingIsExact(s, pid);
    if reply.Accepted? { AcceptedIsInFlight(s, pid); }
    OwnRowExact(s, s', pid, off);
  }

  lemma AcceptedIsInFlight(s: State, pid: nat)
    requires Enabled(s, CallStep(pid, Accepted))
    ensures PayoutInFlight(CallLp(s, pid, Accepted), s.offProcs[pid].off)
  {
    var s' := CallLp(s, pid, Accepted);
    assert pid in s'.offProcs && WritesPayout(s'.offProcs[pid].phase);
  }

  /** Steps that leave every row's list and ids alone, and end no write of a payout. */
  lemma FrameExact(s: State, s': State)
    requires RowsInv(s) && Exact(s) && s'.payouts.Keys == s'.offs.Keys == s.offs.Keys
    requires forall off :: off in s.offs ==>
               Listed(s'.offs[off]) == Listed(s.offs[off]) && PayoutIds(s'.payouts[off]) == PayoutIds(s.payouts[off])
    requires forall p :: p in s.offProcs && WritesPayout(s.offProcs[p].phase) ==> p in s'.offProcs && s'.offProcs[p] == s.offProcs[p]
    ensures ExactState(s')
  {
    forall off | off in s.offs && PayoutInFlight(s, off) ensures PayoutInFlight(s', off) {
      var p :| p in s.offProcs && s.offProcs[p].off == off && WritesPayout(s.offProcs[p].phase);
      assert p in s'.offProcs;
    }
  }

  lemma StartExact(s: State, pid: nat, off: nat, op: OffOp)
    requires RowsInv(s) && Enabled(s, Start(pid, off, op)) && Exact(s)
    ensures ExactState(StartOp(s, pid, off, op))
  {
    FrameExact(s, StartOp(s, pid, off, op));
  }

  /** An operation that was not about to write a payout moves on, or ends. */
  lemma PhaseExact(s: State, pid: nat, phase: Option<OffPhase>)
    requires RowsInv(s) && Exact(s) && pid in s.offProcs && !WritesPayout(s.offProcs[pid].phase)
    ensures ExactState(PutOff(s, pid, s.offProcs[pid].off, phase))
  {
    FrameExact(s, PutOff(s, pid, s.offProcs[pid].off, phase));
  }

  lemma MoveExact(s: State, off: nat, i: nat, next: LpState)
    requires RowsInv(s) && Enabled(s, LpMove(off, i, next)) && Exact(s)
    ensures ExactState(MovePayout(s, off, i, next))
  {
    MoveFrame(s, off, i, next);
    FrameExact(s, MovePayout(s, off, i, next));
  }

  lemma OnExact(s: State, step: Step)
    requires RowsInv(s) && Enabled(s, step) && OnStep(step) && !step.ClaimStep? && !step.WriteOff? && Exact(s)
    ensures ExactState(Apply(s, step))
  {
    OnStepFrame(s, step);
    FrameExact(s, Apply(s, step));
  }

  lemma EventExact(s: State, off: nat, e: OffEvent)
    requires RowsInv(s) && Enabled(s, WriteOff(off, e)) && Exact(s)
    ensures ExactState(WithOff(s, off, ApplyOffEvent(s.offs[off], e)))
  {
    FrameExact(s, WithOff(s, off, ApplyOffEvent(s.offs[off], e)));
  }

  lemma ClaimExact(s: State, pid: nat)
    requires RowsInv(s) && Enabled(s, ClaimStep(pid)) && Exact(s)
    ensures ExactState(TryClaim(s, pid))
  {
    var s' := TryClaim(s, pid);
    var off := s.onProcs[pid].phase.off;
    assert CheckOk(s.onProcs[pid].phase) && RowState(s.offs[off], s.payouts[off]);
    assert Settleable(s.offs[off].status) ==> Listed(s'.offs[off]) == [] == Listed(s.offs[off]);
    FrameExact(s, s');
  }

  lemma RereadExact(s: State, pid: nat)
    requires RowsInv(s) && Enabled(s, RereadStep(pid)) && Exact(s)
    ensures ExactState(Reread(s, pid))
  {
    var row, id := s.offs[s.offProcs[pid].off], s.offProcs[pid].phase.withdrawalId;
    PhaseExact(s, pid, if CurrentPayout(row) == Some(id) then Some(CallingReissue(row, id)) else None);
  }

  lemma OnStepExact(s: State, step: Step)
    requires RowsInv(s) && Enabled(s, step) && OnStep(step) && Exact(s)
    ensures ExactState(Apply(s, step))
  {
    if step.ClaimStep? {
      ClaimExact(s, step.pid);
    } else if step.WriteOff? {
      EventExact(s, step.off, step.event);
    } else {
      OnExact(s, step);
    }
  }

  lemma LoadExact(s: State, pid: nat, loads: bool)
    requires RowsInv(s) && Enabled(s, Load(pid, loads)) && Exact(s)
    ensures ExactState(LoadLp(s, pid, loads))
  {
    var proc := s.offProcs[pid];
    PhaseExact(s, pid, AfterLoad(s.payouts[proc.off], proc.phase.withdrawalId, loads));
  }

  lemma QuietStepExact(s: State, step: Step)
    requires RowsInv(s) && Enabled(s, step) && Exact(s) && (step.LpMove? || step.Start? || step.Load? || step.RereadStep?)
    ensures ExactState(Apply(s, step))
  {
    match step
    case LpMove(off, i, next) => MoveExact(s, off, i, next);
    case Start(pid, off, op) => StartExact(s, pid, off, op);
    case Load(pid, loads) => LoadExact(s, pid, loads);
    case RereadStep(pid) => RereadExact(s, pid);
  }

  lemma OffStepExact(s: State, step: Step)
    requires RowsInv(s) && Enabled(s, step) && AnswerKept(step) && Exact(s) && !OnStep(step)
    ensures ExactState(Apply(s, step))
  {
    if step.Finish? {
      FinishExact(s, step.pid);
    } else if step.CallStep? {
      CallExact(s, step.pid, step.reply);
    } else {
      QuietStepExact(s, step);
    }
  }

  lemma StepExact(s: State, step: Step)
    requires RowsInv(s) && Enabled(s, step) && AnswerKept(step) && Exact(s)
    ensures ExactState(Apply(s, step))
  {
    if OnStep(step) { OnStepExact(s, step); } else { OffStepExact(s, step); }
  }

  predicate AllAnswersKept(steps: seq<Step>) {
    forall k :: 0 <= k < |steps| ==> AnswerKept(steps[k])
  }

  lemma {:induction false} RunExact(s: State, steps: seq<Step>)
    requires RowsInv(s) && ChainsInv(s) && Exact(s) && Legal(s, steps) && SerialRun(s, steps) && AllAnswersKept(steps)
    ensures RowsInv(Exec(s, steps)) && Exact(Exec(s, steps))
    decreases |steps|
  {
    if steps != [] {
      StepRows(s, steps[0]);
      StepExact(s, steps[0]);
      StepChains(s, steps[0]);
      RunExact(Apply(s, steps[0]), steps[1..]);
    }
  }

  // ---------- the theorems ----------

  lemma PrefixOfDistinct(ps: seq<Payout>, listed: seq<nat>)
    requires Chain(ps) && Recorded(PayoutIds(ps), listed)
    ensures forall i, j :: 0 <= i < j < |listed| ==> listed[i] != listed[j]
  {
    var ids := PayoutIds(ps);
    assert ids[..|listed|] == listed;
    forall i, j | 0 <= i < j < |listed| ensures listed[i] != listed[j] {
      assert listed[i] == ids[i] == ps[i].id && listed[j] == ids[j] == ps[j].id;
    }
  }

  /**
   With operations on each offramp row serialised, the superseded ids followed by the current id are the chain of
   the provider's payouts, without repetition, up to one last payout whose answer has not been written; and when no
   answer is lost, an idle row lists the whole chain.
   */
  lemma RowListsItsChain(s: State, steps: seq<Step>, off: nat)
    requires Init(s) && Legal(s, steps) && SerialRun(s, steps) && off in Exec(s, steps).offs
    ensures var e := Exec(s, steps);
            && off in e.payouts
            && Recorded(PayoutIds(e.payouts[off]), Listed(e.offs[off]))
            && (forall i, j :: 0 <= i < j < |Listed(e.offs[off])| ==> Listed(e.offs[off])[i] != Listed(e.offs[off])[j])
            && (AllAnswersKept(steps) && !OffBusy(e, off) ==> Listed(e.offs[off]) == PayoutIds(e.payouts[off]))
  {
    InitRows(s);
    RunRows(s, steps);
    var e := Exec(s, steps);
    assert RowState(e.offs[off], e.payouts[off]);
    PrefixOfDistinct(e.payouts[off], Listed(e.offs[off]));
    if AllAnswersKept(steps) {
      RunExact(s, steps);
    }
  }

  /** Only a finishing write, an event and a claim change an offramp row. */
  lemma OtherStepsLeaveRows(s: State, step: Step)
    requires Enabled(s, step) && !step.Finish? && !step.ClaimStep? && !step.WriteOff?
    ensures Apply(s, step).offs == s.offs
  {
    if OnStep(step) { OnStepFrame(s, step); }
  }

  /** One serialised step never erases the signs that an offramp's crypto arrived. */
  lemma StepKeepsEvidence(s: State, step: Step, off: nat)
    requires RowsInv(s) && Enabled(s, step) && SerialStep(s, step) && off in s.offs && CryptoEvidence(s.offs[off].timeline)
    ensures off in Apply(s, step).offs && CryptoEvidence(Apply(s, step).offs[off].timeline)
  {
    if step.WriteOff? {
      EventKeepsEvidence(s, step.off, step.event, off);
    } else if step.Finish? {
      FinishKeepsEvidence(s, step.pid, off);
    } else if step.ClaimStep? {
      assert Apply(s, step) == TryClaim(s, step.pid);
    } else {
      OtherStepsLeaveRows(s, step);
    }
  }

  lemma EventKeepsEvidence(s: State, target: nat, e: OffEvent, off: nat)
    requires RowsInv(s) && Enabled(s, WriteOff(target, e)) && SerialStep(s, WriteOff(target, e))
    requires off in s.offs && CryptoEvidence(s.offs[off].timeline)
    ensures var s' := Apply(s, WriteOff(target, e));
            off in s'.offs && CryptoEvidence(s'.offs[off].timeline)
  {
    EventKeepsRow(s.offs[target], s.payouts[target], e);
  }

  lemma FinishKeepsEvidence(s: State, pid: nat, off: nat)
    requires RowsInv(s) && Enabled(s, Finish(pid)) && off in s.offs && CryptoEvidence(s.offs[off].timeline)
    ensures off in FinishOp(s, pid).offs && CryptoEvidence(FinishOp(s, pid).offs[off].timeline)
  {
    var proc := s.offProcs[pid];
    assert PhaseOk(s.offs[proc.off], s.payouts[proc.off], proc.phase) && RowState(s.offs[proc.off], s.payouts[proc.off]);
    WriteKeepsRow(s.offs[proc.off], s.payouts[proc.off], proc.phase.write);
    FinishFrame(s, pid);
  }

  lemma {:induction false} RunKeepsEvidence(s: State, steps: seq<Step>, off: nat)
    requires RowsInv(s) && ChainsInv(s) && Legal(s, steps) && SerialRun(s, steps)
    requires off in s.offs && CryptoEvidence(s.offs[off].timeline)
    ensures off in Exec(s, steps).offs && CryptoEvidence(Exec(s, steps).offs[off].timeline)
    decreases |steps|
  {
    if steps != [] {
      StepKeepsEvidence(s, steps[0], off);
      StepRows(s, steps[0]);
      StepChains(s, steps[0]);
      RunKeepsEvidence(Apply(s, steps[0]), steps[1..], off);
    }
  }

  /** Once a serialised run has evidence that an offramp's crypto arrived, no continuation loses it. */
  lemma EvidenceIsNeverErased(s: State, first: seq<Step>, rest: seq<Step>, off: nat)
    requires Init(s) && Legal(s, first) && SerialRun(s, first)
    requires Legal(Exec(s, first), rest) && SerialRun(Exec(s, first), rest)
    requires off in Exec(s, first).offs && CryptoEvidence(Exec(s, first).offs[off].timeline)
    ensures off in Exec(Exec(s, first), rest).offs && CryptoEvidence(Exec(Exec(s, first), rest).offs[off].timeline)
  {
    InitRows(s);
    RunRows(s, first);
    RunKeepsEvidence(Exec(s, first), rest, off);
  }
}
