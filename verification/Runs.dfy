/**
 One operation from start to end with nothing else in between: the state it leaves, as one expression, and the run of
 the machine that leaves the same state.
 */
module Runs {
  import opened Wrappers
  import opened Ramps
  import opened PairCheck
  import opened Transfer
  import opened RowWrites
  import opened TransferClaims
  import opened TransferRows
  import opened TransferGaps
  import Text

  /** No operation is in flight. */
  ghost predicate Quiet(s: State) {
    s.onProcs == map[] && s.offProcs == map[] && s.payouts.Keys == s.offs.Keys && s.crypto.Keys == s.ons.Keys
  }

  /** The same rows, and the same operations in flight. */
  predicate SameShape(s: State, r: State) {
    r.onProcs == s.onProcs && r.offProcs == s.offProcs && r.ons.Keys == s.ons.Keys && r.offs.Keys == s.offs.Keys &&
    r.crypto.Keys == s.crypto.Keys && r.payouts.Keys == s.payouts.Keys
  }

  // ---------- the fiat handoff of a confirmed offramp ----------

  function HandoffWrite(ps: seq<Payout>, reply: Reply): Write
    requires reply.Accepted? ==> HasKey(ps, FirstKey)
  {
    if reply.Accepted? then FirstWrite(FindKey(ps, FirstKey)) else HandoffErrorWrite
  }

  function Handed(s: State, off: nat, reply: Reply): (r: State)
    requires s.payouts.Keys == s.offs.Keys
    ensures SameShape(s, r)
  {
    if off in s.offs && OpEnabled(s.offs[off], HandOff) then
      var row := s.offs[off];
      var ps := PayoutsAfterCall(s.payouts[off], FirstKey, s.nextId, reply);
      s.(offs := s.offs[off := ApplyWrite(row, row, HandoffWrite(ps, reply))],
         payouts := s.payouts[off := ps], nextId := s.nextId + 1)
    else s
  }

  function HandoffSteps(s: State, off: nat, reply: Reply): seq<Step> {
    if off in s.offs && OpEnabled(s.offs[off], HandOff)
    then [Start(0, off, HandOff)] + ([CallStep(0, reply)] + ([Finish(0)] + [])) else []
  }

  /** `steps` is a run from `s` to `e` in which every operation waits for the one before it. */
  ghost predicate Reaches(s: State, steps: seq<Step>, e: State) {
    Legal(s, steps) && CarefulRun(s, steps) && SerialRun(s, steps) && Exec(s, steps) == e
  }

  lemma ReachesNone(s: State)
    ensures Reaches(s, [], s)
  {
  }

  lemma ReachesCons(s: State, step: Step, rest: seq<Step>, e: State)
    requires Enabled(s, step) && Careful(s, step) && SerialStep(s, step) && Reaches(Apply(s, step), rest, e)
    ensures Reaches(s, [step] + rest, e)
  {
    RunCons(s, step, rest);
    assert ([step] + rest)[1..] == rest;
  }

  /** From the call of the handoff on. */
  lemma HandoffCallRuns(s: State, s1: State, off: nat, reply: Reply)
    requires Quiet(s) && off in s.offs && OpEnabled(s.offs[off], HandOff)
    requires s1 == s.(offProcs := map[0 := OffProc(off, CallingFirst(s.offs[off]))])
    ensures Reaches(s1, [CallStep(0, reply)] + ([Finish(0)] + []), Handed(s, off, reply))
  {
    hide ApplyWrite, PayoutsAfterCall, FindKey, HasKey;
    var s2 := Apply(s1, CallStep(0, reply));
    var s3 := Apply(s2, Finish(0));
    assert s3.offProcs == map[];
    assert s3 == Handed(s, off, reply);
    ReachesNone(s3);
    ReachesCons(s2, Finish(0), [], s3);
    ReachesCons(s1, CallStep(0, reply), [Finish(0)] + [], s3);
  }

  lemma HandoffRuns(s: State, off: nat, reply: Reply)
    requires Quiet(s)
    ensures Reaches(s, HandoffSteps(s, off, reply), Handed(s, off, reply))
  {
    ReachesNone(s);
    if off in s.offs && OpEnabled(s.offs[off], HandOff) {
      var s1 := Apply(s, Start(0, off, HandOff));
      assert s1.offProcs == map[0 := OffProc(off, CallingFirst(s.offs[off]))];
      HandoffCallRuns(s, s1, off, reply);
      ReachesCons(s, Start(0, off, HandOff), [CallStep(0, reply)] + ([Finish(0)] + []), Handed(s, off, reply));
    }
  }

  /** The provider's payouts after a keyed call: a known key is replayed, a refused call opens nothing. */
  predicate CalledWith(ps: seq<Payout>, ps': seq<Payout>, key: PayoutKey, reply: Reply) {
    if reply.Rejected? || (exists i :: 0 <= i < |ps| && ps[i].key == key) then ps' == ps
    else |ps'| == |ps| + 1 && ps'[..|ps|] == ps && ps'[|ps|].key == key && ps'[|ps|].state == LpPending
  }

  /** `id` is a payout under the key. */
  predicate IsUnder(ps: seq<Payout>, key: PayoutKey, id: Option<nat>) {
    id.Some? && exists i :: 0 <= i < |ps| && ps[i].key == key && ps[i].id == id.value
  }

  /**
   What a handoff leaves of a row and of the provider's payouts: nothing new unless the crypto is confirmed, no payout is
   recorded and the row is payable; then one call under the first key, and the answer on the row if there is one.
   */
  predicate HandedOff(row: Offramp, row': Offramp, ps: seq<Payout>, ps': seq<Payout>, reply: Reply) {
    if row.status != OffStatus.CryptoConfirmed || row.timeline.fiatWithdrawalCompleted ||
       row.timeline.fiatWithdrawalId.Some? || !row.info.payable
    then row' == row && ps' == ps
    else
      CalledWith(ps, ps', FirstKey, reply) &&
      var id := row'.timeline.fiatWithdrawalId;
      if reply.Accepted?
      then IsUnder(ps', FirstKey, id) &&
           row' == Offramp(row.info, OffStatus.FiatPending, row.timeline.(fiatWithdrawalId := id),
                           Refs(id, row.refs.superseded, row.refs.markedManually))
      else row' == row
  }

  lemma CallLeaves(ps: seq<Payout>, key: PayoutKey, freshId: nat, reply: Reply)
    ensures var ps' := PayoutsAfterCall(ps, key, freshId, reply);
            CalledWith(ps, ps', key, reply) && (reply.Accepted? ==> IsUnder(ps', key, Some(FindKey(ps', key))))
  {
    hide FindKey;
  }

  lemma HandoffOfRow(row: Offramp, ps: seq<Payout>, freshId: nat, reply: Reply)
    ensures var ps' := PayoutsAfterCall(ps, FirstKey, freshId, reply);
            if OpEnabled(row, HandOff) then HandedOff(row, ApplyWrite(row, row, HandoffWrite(ps', reply)), ps, ps', reply)
            else HandedOff(row, row, ps, ps, reply)
  {
    CallLeaves(ps, FirstKey, freshId, reply);
    hide CalledWith, IsUnder, PayoutsAfterCall, FindKey, HasKey;
  }

  lemma HandoffLeaves(s: State, off: nat, reply: Reply)
    requires s.payouts.Keys == s.offs.Keys && off in s.offs
    ensures var r := Handed(s, off, reply);
            HandedOff(s.offs[off], r.offs[off], s.payouts[off], r.payouts[off], reply) && OnlyOfframp(s, r, off)
  {
    hide HandedOff, OpEnabled, ApplyWrite, HandoffWrite, PayoutsAfterCall, HasKey;
    HandoffOfRow(s.offs[off], s.payouts[off], s.nextId, reply);
  }

  /** No other row and no other ramp's withdrawals change. */
  predicate OnlyOfframp(s: State, r: State, off: nat)
    requires r.offs.Keys == s.offs.Keys == r.payouts.Keys == s.payouts.Keys
  {
    r.ons == s.ons && r.crypto == s.crypto && r.claims == s.claims &&
    forall o :: o in s.offs && o != off ==> r.offs[o] == s.offs[o] && r.payouts[o] == s.payouts[o]
  }

  // ---------- operations that are one write ----------

  /** A credit, a cancel, a mark or a webhook: the row it read is the row it writes. */
  function Written(s: State, off: nat, op: OffOp): State
    requires off in s.offs && OpEnabled(s.offs[off], op) && FirstPhase(s.offs[off], op).Writing?
  {
    var row := s.offs[off];
    s.(offs := s.offs[off := ApplyWrite(row, row, FirstPhase(row, op).write)])
  }

  lemma WriteRuns(s: State, off: nat, op: OffOp)
    requires Quiet(s) && off in s.offs && OpEnabled(s.offs[off], op) && FirstPhase(s.offs[off], op).Writing?
    ensures Reaches(s, [Start(0, off, op)] + ([Finish(0)] + []), Written(s, off, op))
  {
    var e := Written(s, off, op);
    var s1 := Apply(s, Start(0, off, op));
    assert s1.offProcs == map[0 := OffProc(off, FirstPhase(s.offs[off], op))];
    var s2 := Apply(s1, Finish(0));
    assert s2.offProcs == map[];
    assert s2 == e;
    ReachesNone(s2);
    ReachesCons(s1, Finish(0), [], e);
    ReachesCons(s, Start(0, off, op), [Finish(0)] + [], e);
  }

  /** A deposit's credit, followed by the handoff once the deposit is complete. */
  function CreditedState(s: State, off: nat, amount: real, reply: Reply): (r: State)
    requires s.payouts.Keys == s.offs.Keys
    ensures SameShape(s, r)
  {
    if off in s.offs && OpEnabled(s.offs[off], Credit(amount)) then
      var s1 := Written(s, off, Credit(amount));
      if CreditCompletes(s.offs[off], amount) then Handed(s1, off, reply) else s1
    else s
  }

  /** What a credit leaves: the total on the row, and the handoff exactly when the total covers the quoted deposit. */
  predicate CreditedOff(row: Offramp, row': Offramp, ps: seq<Payout>, ps': seq<Payout>, amount: real, reply: Reply) {
    if !TakesCredit(row) then row' == row && ps' == ps
    else if Covers(Total(row, amount), row.info) then HandedOff(CreditedRow(row, amount), row', ps, ps', reply)
    else row' == CreditedRow(row, amount) && ps' == ps
  }

  lemma CreditWritten(s: State, off: nat, amount: real)
    requires off in s.offs && amount >= 0.0
    ensures OpEnabled(s.offs[off], Credit(amount)) <==> TakesCredit(s.offs[off])
    ensures TakesCredit(s.offs[off]) ==>
              && Written(s, off, Credit(amount)) == s.(offs := s.offs[off := CreditedRow(s.offs[off], amount)])
              && (CreditCompletes(s.offs[off], amount) <==> Covers(Total(s.offs[off], amount), s.offs[off].info))
  {
    var row := s.offs[off];
    GuardsExactly(row, Credit(amount));
    if TakesCredit(row) {
      WriteLeaves(row, row, Credit(amount));
      CreditCovers(row, amount);
    }
    hide OpEnabled, TakesCredit, CreditCompletes, Covers, Total, ApplyWrite, CreditedRow;
  }

  lemma FrameThrough(s: State, row: Offramp, r: State, off: nat)
    requires s.payouts.Keys == s.offs.Keys && off in s.offs && SameShape(s, r)
    requires OnlyOfframp(s.(offs := s.offs[off := row]), r, off)
    ensures OnlyOfframp(s, r, off)
  {
  }

  lemma CoveredCreditLeaves(s: State, off: nat, amount: real, reply: Reply)
    requires s.payouts.Keys == s.offs.Keys && off in s.offs
    requires TakesCredit(s.offs[off]) && Covers(Total(s.offs[off], amount), s.offs[off].info)
    ensures var r := Handed(s.(offs := s.offs[off := CreditedRow(s.offs[off], amount)]), off, reply);
            SameShape(s, r) && OnlyOfframp(s, r, off) &&
            CreditedOff(s.offs[off], r.offs[off], s.payouts[off], r.payouts[off], amount, reply)
  {
    var m := s.(offs := s.offs[off := CreditedRow(s.offs[off], amount)]);
    HandoffLeaves(m, off, reply);
    hide Covers, Total, HandedOff, TakesCredit, CreditedRow, Handed, OnlyOfframp;
    FrameThrough(s, CreditedRow(s.offs[off], amount), Handed(m, off, reply), off);
  }

  lemma CreditLeaves(s: State, off: nat, amount: real, reply: Reply)
    requires s.payouts.Keys == s.offs.Keys && off in s.offs && amount >= 0.0
    ensures var r := CreditedState(s, off, amount, reply);
            CreditedOff(s.offs[off], r.offs[off], s.payouts[off], r.payouts[off], amount, reply) && OnlyOfframp(s, r, off)
  {
    CreditWritten(s, off, amount);
    hide Covers, CreditCompletes, Total, HandedOff, OpEnabled, TakesCredit, Written, Handed, CreditedRow;
    if TakesCredit(s.offs[off]) && CreditCompletes(s.offs[off], amount) {
      CoveredCreditLeaves(s, off, amount, reply);
      hide CreditedOff, OnlyOfframp;
    }
  }

  // ---------- the operator's retry ----------

  /** The reissue of the payout the row is attached to. */
  function ReissuedState(s: State, off: nat, id: nat, reply: Reply): State
    requires off in s.offs && off in s.payouts
  {
    var row := s.offs[off];
    var ps := PayoutsAfterCall(s.payouts[off], ReissueKey(id), s.nextId, reply);
    s.(offs := if reply.Accepted? then s.offs[off := ApplyWrite(row, row, ReissueWrite(FindKey(ps, ReissueKey(id)), id))] else s.offs,
       payouts := s.payouts[off := ps], nextId := s.nextId + 1)
  }

  function Retried(s: State, off: nat, loads: bool, reply: Reply): (r: State)
    requires s.payouts.Keys == s.offs.Keys
    ensures SameShape(s, r)
  {
    if off !in s.offs || CurrentPayout(s.offs[off]).None? then s
    else
      var id := CurrentPayout(s.offs[off]).value;
      if AfterLoad(s.payouts[off], id, loads).Some? then ReissuedState(s, off, id, reply) else s
  }

  /** What a reissue leaves: one call keyed by the old payout, and when it answers the new one in its place and the old one listed. */
  predicate ReissuedOff(row: Offramp, row': Offramp, ps: seq<Payout>, ps': seq<Payout>, id: nat, reply: Reply) {
    CalledWith(ps, ps', ReissueKey(id), reply) &&
    var next := row'.timeline.fiatWithdrawalId;
    if reply.Accepted?
    then IsUnder(ps', ReissueKey(id), next) &&
         row' == Offramp(row.info, OffStatus.FiatPending, row.timeline.(fiatWithdrawalId := next, fiatWithdrawalCompleted := false),
                         Refs(next, row.refs.superseded + [id], false))
    else row' == row
  }

  lemma ReissueLeaves(s: State, off: nat, id: nat, reply: Reply)
    requires s.payouts.Keys == s.offs.Keys && off in s.offs
    ensures var r := ReissuedState(s, off, id, reply);
            ReissuedOff(s.offs[off], r.offs[off], s.payouts[off], r.payouts[off], id, reply) && OnlyOfframp(s, r, off)
  {
    CallLeaves(s.payouts[off], ReissueKey(id), s.nextId, reply);
    hide CalledWith, IsUnder, PayoutsAfterCall, FindKey, HasKey;
  }

  /** The provider reports the payout failed or refunded. */
  predicate ReportsDead(ps: seq<Payout>, id: nat, loads: bool) {
    loads && (PayoutState(ps, id) == Some(LpFailed) || PayoutState(ps, id) == Some(LpRefunded))
  }

  /** A retry reissues the row's payout exactly when the provider reports it dead, and else leaves everything alone. */
  lemma RetryLeaves(s: State, off: nat, loads: bool, reply: Reply)
    requires s.payouts.Keys == s.offs.Keys && off in s.offs && CurrentPayout(s.offs[off]).Some?
    ensures var r, id := Retried(s, off, loads, reply), CurrentPayout(s.offs[off]).value;
            if ReportsDead(s.payouts[off], id, loads)
            then ReissuedOff(s.offs[off], r.offs[off], s.payouts[off], r.payouts[off], id, reply) && OnlyOfframp(s, r, off)
            else r == s
  {
    var id := CurrentPayout(s.offs[off]).value;
    ReissueLeaves(s, off, id, reply);
    hide ReissuedOff, OnlyOfframp, ReissuedState, PayoutState, CurrentPayout;
  }

  function RetrySteps(s: State, off: nat, loads: bool, reply: Reply): seq<Step>
    requires s.payouts.Keys == s.offs.Keys
  {
    if off !in s.offs || CurrentPayout(s.offs[off]).None? then []
    else
      var id := CurrentPayout(s.offs[off]).value;
      [Start(0, off, Retry)] + ([Load(0, loads)] + (
        if AfterLoad(s.payouts[off], id, loads).None? then []
        else [RereadStep(0)] + CallSteps(reply)))
  }

  function CallSteps(reply: Reply): seq<Step> {
    [CallStep(0, reply)] + (if reply.Accepted? then [Finish(0)] + [] else [])
  }

  /** From the call of the reissue on. */
  lemma ReissueCallRuns(s: State, s3: State, off: nat, id: nat, reply: Reply)
    requires Quiet(s) && off in s.offs
    requires s3 == s.(offProcs := map[0 := OffProc(off, CallingReissue(s.offs[off], id))])
    ensures Reaches(s3, CallSteps(reply), ReissuedState(s, off, id, reply))
  {
    var s4 := Apply(s3, CallStep(0, reply));
    var e := ReissuedState(s, off, id, reply);
    if reply.Accepted? {
      var s5 := Apply(s4, Finish(0));
      assert s5.offProcs == map[];
      assert s5 == e;
      ReachesNone(s5);
      ReachesCons(s4, Finish(0), [], e);
    } else {
      assert s4.offProcs == map[];
      assert s4 == e;
      ReachesNone(s4);
    }
    ReachesCons(s3, CallStep(0, reply), if reply.Accepted? then [Finish(0)] + [] else [], e);
  }

  /** From the second look at the row on. */
  lemma ReissueRuns(s: State, s2: State, off: nat, id: nat, reply: Reply)
    requires Quiet(s) && off in s.offs && CurrentPayout(s.offs[off]) == Some(id)
    requires s2 == s.(offProcs := map[0 := OffProc(off, Rereading(id))])
    ensures Reaches(s2, [RereadStep(0)] + CallSteps(reply), ReissuedState(s, off, id, reply))
  {
    var s3 := Apply(s2, RereadStep(0));
    assert s3.offProcs == map[0 := OffProc(off, CallingReissue(s.offs[off], id))];
    ReissueCallRuns(s, s3, off, id, reply);
    ReachesCons(s2, RereadStep(0), CallSteps(reply), ReissuedState(s, off, id, reply));
  }

  /** From the load of the payout's live state on. */
  lemma LoadRuns(s: State, s1: State, off: nat, id: nat, loads: bool, reply: Reply)
    requires Quiet(s) && off in s.offs && CurrentPayout(s.offs[off]) == Some(id)
    requires s1 == s.(offProcs := map[0 := OffProc(off, LoadingLp(id))])
    ensures Reaches(s1, [Load(0, loads)] + (if AfterLoad(s.payouts[off], id, loads).None? then [] else [RereadStep(0)] + CallSteps(reply)),
                    Retried(s, off, loads, reply))
  {
    var s2 := Apply(s1, Load(0, loads));
    var e := Retried(s, off, loads, reply);
    var tail: seq<Step> := if AfterLoad(s.payouts[off], id, loads).None? then [] else [RereadStep(0)] + CallSteps(reply);
    if AfterLoad(s.payouts[off], id, loads).None? {
      assert s2.offProcs == map[];
      assert s2 == e;
      ReachesNone(s2);
    } else {
      assert s2.offProcs == map[0 := OffProc(off, Rereading(id))];
      ReissueRuns(s, s2, off, id, reply);
    }
    ReachesCons(s1, Load(0, loads), tail, e);
  }

  lemma RetryRuns(s: State, off: nat, loads: bool, reply: Reply)
    requires Quiet(s)
    ensures Reaches(s, RetrySteps(s, off, loads, reply), Retried(s, off, loads, reply))
  {
    ReachesNone(s);
    if off in s.offs && CurrentPayout(s.offs[off]).Some? {
      var id := CurrentPayout(s.offs[off]).value;
      var s1 := Apply(s, Start(0, off, Retry));
      assert s1.offProcs == map[0 := OffProc(off, LoadingLp(id))];
      LoadRuns(s, s1, off, id, loads, reply);
      var tail: seq<Step> := if AfterLoad(s.payouts[off], id, loads).None? then [] else [RereadStep(0)] + CallSteps(reply);
      ReachesCons(s, Start(0, off, Retry), [Load(0, loads)] + tail, Retried(s, off, loads, reply));
    }
  }

  // ---------- the advance of an onramp ----------

  function HeldCrypto(held: seq<nat>, freshId: nat, reply: Reply): (r: seq<nat>)
    ensures reply.Accepted? ==> r != []
  {
    if reply.Rejected? || held != [] then held else [freshId]
  }

  /** The row after an on-chain send. */
  function SentRow(row: Onramp, held: seq<nat>, reply: Reply): Onramp
    requires reply.Accepted? ==> held != []
  {
    UpdateOn(InitiatedRow(row), OnStatus.CryptoPending, false)
      .(receiptWithdrawalId := if reply.Accepted? then Some(held[0]) else None)
  }

  function SentState(s: State, on: nat, reply: Reply): (r: State)
    requires on in s.ons && on in s.crypto
    ensures SameShape(s, r)
  {
    var held := HeldCrypto(s.crypto[on], s.nextId, reply);
    s.(ons := s.ons[on := SentRow(s.ons[on], held, reply)], crypto := s.crypto[on := held], nextId := s.nextId + 1)
  }

  function SendSteps(reply: Reply): seq<Step> {
    [InitiateStep(0)] + ([SendStep(0, reply)] + ([SentStep(0)] + []))
  }

  /** The row once the send is marked as begun. */
  function InitiatedRow(row: Onramp): Onramp {
    if row.status.FiatProcessed? then UpdateOn(row, OnStatus.CryptoInitiated, false) else row
  }

  lemma InitiateRuns(s: State, s1: State, on: nat)
    requires Quiet(s) && on in s.ons
    requires s1 == s.(onProcs := map[0 := OnProc(on, s.ons[on], Sending)])
    ensures Enabled(s1, InitiateStep(0))
    ensures Apply(s1, InitiateStep(0)) ==
              s.(ons := s.ons[on := InitiatedRow(s.ons[on])], onProcs := map[0 := OnProc(on, s.ons[on], Calling)])
  {
    var s2 := Apply(s1, InitiateStep(0));
    assert s2.onProcs == map[0 := OnProc(on, s.ons[on], Calling)];
    assert s2.ons == s.ons[on := InitiatedRow(s.ons[on])];
  }

  lemma CallRuns(s: State, ons: map<nat, Onramp>, on: nat, row: Onramp, reply: Reply)
    requires Quiet(s) && on in ons && on in s.crypto
    ensures var s2 := s.(ons := ons, onProcs := map[0 := OnProc(on, row, Calling)]);
            var held := HeldCrypto(s.crypto[on], s.nextId, reply);
            Enabled(s2, SendStep(0, reply)) &&
            Apply(s2, SendStep(0, reply)) ==
              s.(ons := ons, crypto := s.crypto[on := held], nextId := s.nextId + 1,
                 onProcs := map[0 := OnProc(on, row, Answered(if reply.Accepted? then Some(held[0]) else None))])
  {
    var s2 := s.(ons := ons, onProcs := map[0 := OnProc(on, row, Calling)]);
    var held := HeldCrypto(s.crypto[on], s.nextId, reply);
    assert Apply(s2, SendStep(0, reply)).onProcs ==
             map[0 := OnProc(on, row, Answered(if reply.Accepted? then Some(held[0]) else None))];
  }

  lemma SentRuns(s3: State, on: nat, row: Onramp, id: Option<nat>)
    requires s3.onProcs == map[0 := OnProc(on, row, Answered(id))] && on in s3.ons && on in s3.crypto
    ensures Enabled(s3, SentStep(0))
    ensures Apply(s3, SentStep(0)) ==
              s3.(ons := s3.ons[on := UpdateOn(s3.ons[on], OnStatus.CryptoPending, false).(receiptWithdrawalId := id)],
                  onProcs := map[])
  {
    assert Apply(s3, SentStep(0)).onProcs == map[];
  }

  lemma SendRuns(s: State, s1: State, on: nat, reply: Reply)
    requires Quiet(s) && on in s.ons
    requires s1 == s.(onProcs := map[0 := OnProc(on, s.ons[on], Sending)])
    ensures Reaches(s1, SendSteps(reply), SentState(s, on, reply))
  {
    var row := s.ons[on];
    var held := HeldCrypto(s.crypto[on], s.nextId, reply);
    var ons := s.ons[on := InitiatedRow(row)];
    InitiateRuns(s, s1, on);
    var s2 := Apply(s1, InitiateStep(0));
    CallRuns(s, ons, on, row, reply);
    var s3 := Apply(s2, SendStep(0, reply));
    SentRuns(s3, on, row, if reply.Accepted? then Some(held[0]) else None);
    var s4 := Apply(s3, SentStep(0));
    assert ons[on := SentRow(row, held, reply)] == s.ons[on := SentRow(row, held, reply)];
    assert s4 == SentState(s, on, reply);
    ReachesNone(s4);
    ReachesCons(s3, SentStep(0), [], s4);
    ReachesCons(s2, SendStep(0, reply), [SentStep(0)] + [], s4);
    ReachesCons(s1, InitiateStep(0), [SendStep(0, reply)] + ([SentStep(0)] + []), s4);
  }

  /** After the claim and the completion of the onramp, before the handoff. */
  function SettledState(s: State, on: nat, off: nat, amount: real): (r: State)
    requires on in s.ons && off in s.offs
    ensures SameShape(s, r)
  {
    var row := s.offs[off];
    s.(ons := s.ons[on := Onramp(s.ons[on].info, OnStatus.Completed, None)],
       offs := s.offs[off := row.(status := OffStatus.CryptoConfirmed, timeline := SettledTimeline(row.timeline, on, amount))],
       claims := s.claims + [Claim(on, off, amount, 0)])
  }

  lemma SettleRuns(s: State, s1: State, on: nat, off: nat, amount: real, tail: seq<Step>, e: State)
    requires Quiet(s) && on in s.ons && off in s.offs && Settleable(s.offs[off].status)
    requires s1 == s.(onProcs := map[0 := OnProc(on, s.ons[on], Checked(off, s.offs[off], amount))])
    requires Reaches(SettledState(s, on, off, amount), tail, e)
    ensures Reaches(s1, [ClaimStep(0)] + ([CompleteStep(0)] + tail), e)
  {
    var s2 := Apply(s1, ClaimStep(0));
    assert s2.onProcs == map[0 := OnProc(on, s.ons[on], Claimed(|s.claims|))];
    var s3 := Apply(s2, CompleteStep(0));
    assert s3.onProcs == map[];
    assert s3 == SettledState(s, on, off, amount);
    ReachesCons(s2, CompleteStep(0), tail, e);
    ReachesCons(s1, ClaimStep(0), [CompleteStep(0)] + tail, e);
  }

  /** The offramp an advance settles into, if any. */
  function SettlesInto(row: Onramp, offs: map<nat, Offramp>, now: int): (r: Option<nat>)
    ensures r.Some? ==> r.value in offs && CheckPair(row.info, offs[r.value], now).Pair?
  {
    if row.status.FiatProcessed? && IsFiatToFiat(Text.Trim(row.info.flow)) then SoleMatch(row, offs, now) else None
  }

  /** The one offramp that an onramp with its fiat in pays. */
  predicate PaysOnly(row: Onramp, offs: map<nat, Offramp>, now: int, off: nat) {
    row.status.FiatProcessed? && off in offs && Chosen(row.info, offs[off], now) &&
    forall o :: o in offs && Chosen(row.info, offs[o], now) ==> o == off
  }

  /** An advance settles into an offramp exactly when it is the only one the onramp pays. */
  lemma SettlesIntoExactly(row: Onramp, offs: map<nat, Offramp>, now: int, off: nat)
    ensures SettlesInto(row, offs, now) == Some(off) <==> PaysOnly(row, offs, now, off)
  {
    var ms := Matches(row.info, offs, now);
    forall o ensures o in ms <==> o in offs && Chosen(row.info, offs[o], now) {
      MatchesExactly(row.info, offs, now, o);
    }
    FlowOfChosen(row, offs, now, off);
    hide Chosen, CheckPair, Matches, Text.Trim, IsFiatToFiat;
    assert PaysOnly(row, offs, now, off) ==> ms == {off};
  }

  lemma SettlesMeans(row: Onramp, offs: map<nat, Offramp>, now: int)
    ensures SettlesInto(row, offs, now).Some? <==> exists off :: PaysOnly(row, offs, now, off)
    ensures SettlesInto(row, offs, now).Some? ==>
              var off := SettlesInto(row, offs, now).value;
              PaysOnly(row, offs, now, off) && row.info.dest.amount == Some(CheckPair(row.info, offs[off], now).amount) &&
              forall o :: PaysOnly(row, offs, now, o) ==> o == off
  {
    var into := SettlesInto(row, offs, now);
    forall off: nat ensures into == Some(off) <==> PaysOnly(row, offs, now, off) {
      SettlesIntoExactly(row, offs, now, off);
    }
    if into.Some? { PairsExactly(row.info, offs[into.value], now); }
    hide CheckPair, SettlesInto, PaysOnly, Fits;
  }

  lemma FlowOfChosen(row: Onramp, offs: map<nat, Offramp>, now: int, off: nat)
    ensures off in offs && Chosen(row.info, offs[off], now) ==> IsFiatToFiat(Text.Trim(row.info.flow))
  {
    hide SameAddress, Text.Norm, Text.Trim;
  }

  predicate Sends(row: Onramp) {
    SendEligible(row) && row.info.sendable
  }

  /** Settle internally and hand the offramp off, or send on-chain, or do nothing. */
  function Advanced(s: State, on: nat, now: int, reply: Reply, payoutReply: Reply): (r: State)
    requires s.payouts.Keys == s.offs.Keys && s.crypto.Keys == s.ons.Keys
    ensures SameShape(s, r)
  {
    if on !in s.ons then s
    else
      var into := SettlesInto(s.ons[on], s.offs, now);
      if into.Some? then
        var amount := CheckPair(s.ons[on].info, s.offs[into.value], now).amount;
        Handed(SettledState(s, on, into.value, amount), into.value, payoutReply)
      else if Sends(s.ons[on]) then SentState(s, on, reply)
      else s
  }

  lemma SendsExactly(row: Onramp)
    ensures Sends(row) <==> MaySend(row)
  {
  }

  /** What a send leaves: one withdrawal at most, and the onramp waiting for it with its id, if the answer came. */
  lemma SendLeaves(s: State, on: nat, reply: Reply)
    requires on in s.ons && on in s.crypto
    ensures var r := SentState(s, on, reply);
            && r.crypto == s.crypto[on := if s.crypto[on] == [] && reply != Rejected then [s.nextId] else s.crypto[on]]
            && r.ons == s.ons[on := Onramp(s.ons[on].info, OnStatus.CryptoPending,
                                           if reply == Accepted then Some(r.crypto[on][0]) else None)]
            && r.offs == s.offs && r.payouts == s.payouts && r.claims == s.claims
  {
  }

  /** What a settlement leaves before the handoff: the onramp completed, its offramp confirmed, credited and claimed by it. */
  lemma SettleLeaves(s: State, on: nat, off: nat, amount: real)
    requires on in s.ons && off in s.offs
    ensures var r, row := SettledState(s, on, off, amount), s.offs[off];
            && r.ons == s.ons[on := Onramp(s.ons[on].info, OnStatus.Completed, None)]
            && r.offs == s.offs[off := Offramp(row.info, OffStatus.CryptoConfirmed,
                                               Timeline(Some(amount), true, true, Some(on), row.timeline.fiatWithdrawalId,
                                                        row.timeline.fiatWithdrawalCompleted), row.refs)]
            && r.claims == s.claims + [Claim(on, off, amount, 0)] && r.crypto == s.crypto && r.payouts == s.payouts
  {
  }

  /** Which of the three an advance does. */
  lemma AdvanceLeaves(s: State, on: nat, now: int, reply: Reply, payoutReply: Reply)
    requires s.payouts.Keys == s.offs.Keys && s.crypto.Keys == s.ons.Keys && on in s.ons
    ensures forall off :: PaysOnly(s.ons[on], s.offs, now, off) ==>
              Advanced(s, on, now, reply, payoutReply) ==
                Handed(SettledState(s, on, off, s.ons[on].info.dest.amount.value), off, payoutReply)
    ensures !(exists off :: PaysOnly(s.ons[on], s.offs, now, off)) ==>
              Advanced(s, on, now, reply, payoutReply) == if Sends(s.ons[on]) then SentState(s, on, reply) else s
  {
    SettlesMeans(s.ons[on], s.offs, now);
    hide PaysOnly, CheckPair, SettlesInto, Handed, SettledState, SentState, Sends;
  }

  function AdvanceSteps(s: State, on: nat, now: int, reply: Reply, payoutReply: Reply): seq<Step> {
    if on !in s.ons then []
    else
      var into := SettlesInto(s.ons[on], s.offs, now);
      [Advance(0, on, now)] + (
        if into.Some? then
          var amount := CheckPair(s.ons[on].info, s.offs[into.value], now).amount;
          [ClaimStep(0)] + ([CompleteStep(0)] + HandoffSteps(SettledState(s, on, into.value, amount), into.value, payoutReply))
        else if Sends(s.ons[on]) then SendSteps(reply)
        else [])
  }

  lemma AdvanceRuns(s: State, on: nat, now: int, reply: Reply, payoutReply: Reply)
    requires Quiet(s)
    ensures Reaches(s, AdvanceSteps(s, on, now, reply, payoutReply), Advanced(s, on, now, reply, payoutReply))
  {
    ReachesNone(s);
    if on in s.ons {
      var row := s.ons[on];
      var into := SettlesInto(row, s.offs, now);
      var s1 := Apply(s, Advance(0, on, now));
      var e := Advanced(s, on, now, reply, payoutReply);
      var tail := AdvanceSteps(s, on, now, reply, payoutReply)[1..];
      if into.Some? {
        var off := into.value;
        var amount := CheckPair(row.info, s.offs[off], now).amount;
        assert s1.onProcs == map[0 := OnProc(on, row, Checked(off, s.offs[off], amount))];
        HandoffRuns(SettledState(s, on, off, amount), off, payoutReply);
        SettleRuns(s, s1, on, off, amount, HandoffSteps(SettledState(s, on, off, amount), off, payoutReply), e);
      } else if Sends(row) {
        assert s1.onProcs == map[0 := OnProc(on, row, Sending)];
        SendRuns(s, s1, on, reply);
      } else {
        assert s1.onProcs == map[];
        assert s1 == s;
      }
      ReachesCons(s, Advance(0, on, now), tail, e);
    }
  }
}
