/** Whole operations one after another, in any order and number: what every list of them keeps. */
module Operations {
  import opened Ramps
  import opened PairCheck
  import opened Transfer
  import opened TransferClaims
  import opened TransferPayouts
  import opened TransferRows
  import opened Runs

  datatype Operation =
    | AdvanceOp(on: nat, now: int, reply: Reply, payoutReply: Reply)
    | HandoffOp(off: nat, reply: Reply)
    | RetryOp(off: nat, loads: bool, reply: Reply)    // the dashboard's retry
    | CreditOp(off: nat, amount: real, reply: Reply)
    | RowOp(off: nat, op: OffOp)                      // one read of an offramp and one write
    | OnrampOp(on: nat, write: OnWrite)               // one read of an onramp and one write
    | EventOp(off: nat, event: OffEvent)
    | ProviderOp(off: nat, i: nat, next: LpState)

  predicate Keyed(s: State) {
    s.payouts.Keys == s.offs.Keys && s.crypto.Keys == s.ons.Keys
  }

  /** The write is decided on the row as it is. */
  predicate Decided(s: State, on: nat, w: OnWrite) {
    Enabled(s, WriteOn(on, w)) && (Reads(w) ==> w.seen == s.ons[on].status)
  }

  predicate Writes(s: State, off: nat, op: OffOp) {
    off in s.offs && OpEnabled(s.offs[off], op) && FirstPhase(s.offs[off], op).Writing?
  }

  /** Retry on the row's payout if it has one, else the handoff. */
  function Routed(s: State, off: nat, loads: bool, reply: Reply): State
    requires Keyed(s)
  {
    if off in s.offs && CurrentPayout(s.offs[off]).None? then Handed(s, off, reply) else Retried(s, off, loads, reply)
  }

  /** The state a whole operation leaves; one that its guard refuses changes nothing. */
  function Perform(s: State, op: Operation): (r: State)
    requires Keyed(s)
    ensures SameShape(s, r)
  {
    match op
    case AdvanceOp(on, now, reply, payoutReply) => Advanced(s, on, now, reply, payoutReply)
    case HandoffOp(off, reply) => Handed(s, off, reply)
    case RetryOp(off, loads, reply) => Routed(s, off, loads, reply)
    case CreditOp(off, amount, reply) => CreditedState(s, off, amount, reply)
    case RowOp(off, o) => if Writes(s, off, o) then Written(s, off, o) else s
    case OnrampOp(on, w) => if Decided(s, on, w) then WithOn(s, on, ApplyOnWrite(s.ons[on], w)) else s
    case EventOp(off, e) => if off in s.offs then WithOff(s, off, ApplyOffEvent(s.offs[off], e)) else s
    case ProviderOp(off, i, next) => if Enabled(s, LpMove(off, i, next)) then MovePayout(s, off, i, next) else s
  }

  /** The provider's older events reach only the rows they are safe for; every other operation may come at any time. */
  ghost predicate Allowed(s: State, op: Operation) {
    match op
    case OnrampOp(on, w) => w.Legacy? && on in s.ons ==> !Settled(s, on) && !Sent(s, on)
    case EventOp(off, e) =>
      off in s.offs ==> (e.CryptoReceivedEvent? ==> Waiting(s.offs[off].status)) && (ReplacesTimeline(e) ==> Blank(s.offs[off]))
    case _ => true
  }

  // ---------- one operation is a run ----------

  function CreditSteps(s: State, off: nat, amount: real, reply: Reply): seq<Step>
    requires Keyed(s)
  {
    if Writes(s, off, Credit(amount)) then
      ([Start(0, off, Credit(amount))] + ([Finish(0)] + [])) +
        (if CreditCompletes(s.offs[off], amount) then HandoffSteps(Written(s, off, Credit(amount)), off, reply) else [])
    else []
  }

  function OpSteps(s: State, op: Operation): seq<Step>
    requires Keyed(s)
  {
    match op
    case AdvanceOp(on, now, reply, payoutReply) => AdvanceSteps(s, on, now, reply, payoutReply)
    case HandoffOp(off, reply) => HandoffSteps(s, off, reply)
    case RetryOp(off, loads, reply) =>
      if off in s.offs && CurrentPayout(s.offs[off]).None? then HandoffSteps(s, off, reply) else RetrySteps(s, off, loads, reply)
    case CreditOp(off, amount, reply) => CreditSteps(s, off, amount, reply)
    case RowOp(off, o) => if Writes(s, off, o) then [Start(0, off, o)] + ([Finish(0)] + []) else []
    case OnrampOp(on, w) => if Decided(s, on, w) then [WriteOn(on, w)] + [] else []
    case EventOp(off, e) => if off in s.offs then [WriteOff(off, e)] + [] else []
    case ProviderOp(off, i, next) => if Enabled(s, LpMove(off, i, next)) then [LpMove(off, i, next)] + [] else []
  }

  lemma {:induction false} ReachesAppend(s: State, xs: seq<Step>, m: State, ys: seq<Step>, e: State)
    requires Reaches(s, xs, m) && Reaches(m, ys, e)
    ensures Reaches(s, xs + ys, e)
    decreases |xs|
  {
    if xs == [] {
      assert xs + ys == ys;
    } else {
      ReachesAppend(Apply(s, xs[0]), xs[1..], m, ys, e);
      ReachesCons(s, xs[0], xs[1..] + ys, e);
      assert xs + ys == [xs[0]] + (xs[1..] + ys);
    }
  }

  lemma OneStepRuns(s: State, step: Step)
    requires Enabled(s, step) && Careful(s, step) && SerialStep(s, step)
    ensures Reaches(s, [step] + [], Apply(s, step))
  {
    ReachesNone(Apply(s, step));
    ReachesCons(s, step, [], Apply(s, step));
  }

  lemma CreditRuns(s: State, off: nat, amount: real, reply: Reply)
    requires Quiet(s)
    ensures Reaches(s, CreditSteps(s, off, amount, reply), CreditedState(s, off, amount, reply))
  {
    ReachesNone(s);
    if Writes(s, off, Credit(amount)) {
      var s1 := Written(s, off, Credit(amount));
      WriteRuns(s, off, Credit(amount));
      ReachesNone(s1);
      HandoffRuns(s1, off, reply);
      ReachesAppend(s, [Start(0, off, Credit(amount))] + ([Finish(0)] + []), s1,
        if CreditCompletes(s.offs[off], amount) then HandoffSteps(s1, off, reply) else [], CreditedState(s, off, amount, reply));
    }
  }

  lemma SingleRuns(s: State, op: Operation)
    requires Quiet(s) && Allowed(s, op) && (op.OnrampOp? || op.EventOp? || op.ProviderOp?)
    ensures Reaches(s, OpSteps(s, op), Perform(s, op))
  {
    ReachesNone(s);
    match op
    case OnrampOp(on, w) => if Decided(s, on, w) { OneStepRuns(s, WriteOn(on, w)); }
    case EventOp(off, e) => if off in s.offs { OneStepRuns(s, WriteOff(off, e)); }
    case ProviderOp(off, i, next) => if Enabled(s, LpMove(off, i, next)) { OneStepRuns(s, LpMove(off, i, next)); }
  }

  /** Every whole operation is a careful, serialised run of the machine to the state it leaves. */
  lemma OperationRuns(s: State, op: Operation)
    requires Quiet(s) && Allowed(s, op)
    ensures Reaches(s, OpSteps(s, op), Perform(s, op))
  {
    ReachesNone(s);
    match op
    case AdvanceOp(on, now, reply, payoutReply) => AdvanceRuns(s, on, now, reply, payoutReply);
    case HandoffOp(off, reply) => HandoffRuns(s, off, reply);
    case RetryOp(off, loads, reply) =>
      HandoffRuns(s, off, reply);
      RetryRuns(s, off, loads, reply);
    case CreditOp(off, amount, reply) => CreditRuns(s, off, amount, reply);
    case RowOp(off, o) => if Writes(s, off, o) { WriteRuns(s, off, o); }
    case OnrampOp(_, _) => SingleRuns(s, op);
    case EventOp(_, _) => SingleRuns(s, op);
    case ProviderOp(_, _, _) => SingleRuns(s, op);
  }

  // ---------- any list of operations ----------

  function PerformAll(s: State, ops: seq<Operation>): (r: State)
    requires Keyed(s)
    ensures SameShape(s, r)
    decreases |ops|
  {
    if ops == [] then s else PerformAll(Perform(s, ops[0]), ops[1..])
  }

  function AllSteps(s: State, ops: seq<Operation>): seq<Step>
    requires Keyed(s)
    decreases |ops|
  {
    if ops == [] then [] else OpSteps(s, ops[0]) + AllSteps(Perform(s, ops[0]), ops[1..])
  }

  ghost predicate AllAllowed(s: State, ops: seq<Operation>)
    requires Keyed(s)
    decreases |ops|
  {
    ops == [] || (Allowed(s, ops[0]) && AllAllowed(Perform(s, ops[0]), ops[1..]))
  }

  /** A list without the provider's older events is always allowed. */
  predicate NoOlderEvents(ops: seq<Operation>) {
    forall k :: 0 <= k < |ops| ==> !(ops[k].OnrampOp? && ops[k].write.Legacy?) && (ops[k].EventOp? ==> ops[k].event.FeesSaved?)
  }

  lemma {:induction false} WithoutOlderEventsAllowed(s: State, ops: seq<Operation>)
    requires Keyed(s) && NoOlderEvents(ops)
    ensures AllAllowed(s, ops)
    decreases |ops|
  {
    if ops != [] {
      assert NoOlderEvents(ops[1..]);
      WithoutOlderEventsAllowed(Perform(s, ops[0]), ops[1..]);
    }
  }

  lemma {:induction false} OperationsRun(s: State, ops: seq<Operation>)
    requires Quiet(s) && AllAllowed(s, ops)
    ensures Reaches(s, AllSteps(s, ops), PerformAll(s, ops))
    decreases |ops|
  {
    if ops == [] {
      ReachesNone(s);
    } else {
      var m := Perform(s, ops[0]);
      OperationRuns(s, ops[0]);
      OperationsRun(m, ops[1..]);
      ReachesAppend(s, OpSteps(s, ops[0]), m, AllSteps(m, ops[1..]), PerformAll(m, ops[1..]));
    }
  }

  // ---------- the theorems ----------

  /** Everything the machine's careful, serialised runs keep. */
  ghost predicate Sound(s: State) {
    Quiet(s) && Inv(s) && ChainsInv(s) && RowsInv(s)
  }

  /** One operation, from any sound state. */
  lemma PerformKeepsSound(s: State, op: Operation)
    requires Sound(s) && Allowed(s, op)
    ensures Sound(Perform(s, op))
  {
    OperationRuns(s, op);
    RunInv(s, OpSteps(s, op));
    RunRows(s, OpSteps(s, op));
  }

  /** No onramp is both settled internally and sent on-chain, and each is settled into one offramp of its own. */
  ghost predicate PaidOnce(s: State) {
    && (forall on :: on in s.crypto ==> |s.crypto[on]| <= 1 && !(Settled(s, on) && Sent(s, on)))
    && (forall i, j :: 0 <= i < j < |s.claims| ==> s.claims[i].off != s.claims[j].off && s.claims[i].on != s.claims[j].on)
  }

  /** One chain of payouts with at most one live, which the row lists. */
  predicate PayoutsListed(row: Offramp, ps: seq<Payout>) {
    && Chain(ps) && Recorded(PayoutIds(ps), Listed(row))
    && (forall i, j :: 0 <= i < |ps| && 0 <= j < |ps| && !Reissueable(ps[i].state) && !Reissueable(ps[j].state) ==> i == j)
  }

  lemma SoundIsPaidOnce(s: State)
    requires Sound(s)
    ensures PaidOnce(s)
  {
    forall on | on in s.crypto && Settled(s, on) ensures !Sent(s, on) {
      var i :| 0 <= i < |s.claims| && s.claims[i].on == on;
      assert SettlementOk(s, s.claims[i]);
    }
  }

  lemma OperationsKeepSound(s: State, ops: seq<Operation>)
    requires Sound(s) && AllAllowed(s, ops)
    ensures Sound(PerformAll(s, ops))
  {
    OperationsRun(s, ops);
    RunInv(s, AllSteps(s, ops));
    RunRows(s, AllSteps(s, ops));
  }

  lemma FreshIsSound(s: State)
    requires Init(s)
    ensures Sound(s)
  {
    InitInv(s);
    InitRows(s);
  }

  lemma SoundListsPayouts(s: State, off: nat)
    requires Sound(s) && off in s.offs
    ensures PayoutsListed(s.offs[off], s.payouts[off])
  {
    assert RowState(s.offs[off], s.payouts[off]);
  }

  /**
   From fresh rows, whatever whole operations follow one another, in any order and number: the crypto of every onramp is
   paid once, every offramp's payouts are one chain with at most one live payout that the row lists, and every other
   operation may follow.
   */
  lemma OperationsAreSafe(s: State, ops: seq<Operation>)
    requires Init(s) && AllAllowed(s, ops)
    ensures var e := PerformAll(s, ops);
            Sound(e) && PaidOnce(e) && forall off :: off in e.offs ==> PayoutsListed(e.offs[off], e.payouts[off])
  {
    FreshIsSound(s);
    OperationsKeepSound(s, ops);
    var e := PerformAll(s, ops);
    SoundIsPaidOnce(e);
    forall off | off in e.offs ensures PayoutsListed(e.offs[off], e.payouts[off]) {
      SoundListsPayouts(e, off);
    }
  }

  /** The state that some allowed list of operations leaves, from fresh rows. */
  ghost predicate Reached(s: State) {
    exists first: State, ops: seq<Operation> :: Init(first) && AllAllowed(first, ops) && PerformAll(first, ops) == s
  }

  lemma {:induction false} PerformAllSnoc(s: State, ops: seq<Operation>, op: Operation)
    requires Keyed(s) && AllAllowed(s, ops) && Allowed(PerformAll(s, ops), op)
    ensures AllAllowed(s, ops + [op]) && PerformAll(s, ops + [op]) == Perform(PerformAll(s, ops), op)
    decreases |ops|
  {
    if ops == [] {
      assert ops + [op] == [op];
      assert [op][1..] == [];
    } else {
      PerformAllSnoc(Perform(s, ops[0]), ops[1..], op);
      assert (ops + [op])[1..] == ops[1..] + [op];
    }
  }

  lemma ReachedMeans(s: State) returns (first: State, ops: seq<Operation>)
    requires Reached(s)
    ensures Init(first) && AllAllowed(first, ops) && PerformAll(first, ops) == s
  {
    first, ops :| Init(first) && AllAllowed(first, ops) && PerformAll(first, ops) == s;
  }

  lemma ReachedBy(first: State, ops: seq<Operation>, s: State)
    requires Init(first) && AllAllowed(first, ops) && PerformAll(first, ops) == s
    ensures Reached(s)
  {
  }

  /** One more operation. */
  lemma PerformStaysReached(s: State, op: Operation, s': State)
    requires Keyed(s) && Reached(s) && Allowed(s, op) && s' == Perform(s, op)
    ensures Reached(s')
  {
    var first, ops := ReachedMeans(s);
    PerformAllSnoc(first, ops, op);
    ReachedBy(first, ops + [op], s');
  }

  lemma HandoffStaysReached(s: State, off: nat, reply: Reply)
    requires Keyed(s)
    ensures Reached(s) ==> Reached(Handed(s, off, reply))
  {
    if Reached(s) { PerformStaysReached(s, HandoffOp(off, reply), Handed(s, off, reply)); }
  }

  lemma CreditStaysReached(s: State, off: nat, amount: real, reply: Reply)
    requires Keyed(s)
    ensures Reached(s) ==> Reached(CreditedState(s, off, amount, reply))
  {
    if Reached(s) { PerformStaysReached(s, CreditOp(off, amount, reply), CreditedState(s, off, amount, reply)); }
  }

  lemma WriteStaysReached(s: State, off: nat, op: OffOp)
    requires Keyed(s) && Writes(s, off, op)
    ensures Reached(s) ==> Reached(Written(s, off, op))
  {
    if Reached(s) { PerformStaysReached(s, RowOp(off, op), Written(s, off, op)); }
  }

  lemma AdvanceStaysReached(s: State, on: nat, now: int, reply: Reply, payoutReply: Reply)
    requires Keyed(s)
    ensures Reached(s) ==> Reached(Advanced(s, on, now, reply, payoutReply))
  {
    if Reached(s) { PerformStaysReached(s, AdvanceOp(on, now, reply, payoutReply), Advanced(s, on, now, reply, payoutReply)); }
  }

  lemma RetryStaysReached(s: State, off: nat, loads: bool, reply: Reply)
    requires Keyed(s)
    ensures Reached(s) ==> Reached(Retried(s, off, loads, reply))
  {
    if Reached(s) && !(off in s.offs && CurrentPayout(s.offs[off]).None?) {
      PerformStaysReached(s, RetryOp(off, loads, reply), Retried(s, off, loads, reply));
    }
  }

  /** So every reached state is safe. */
  lemma ReachedIsSafe(s: State)
    requires Reached(s)
    ensures Sound(s) && PaidOnce(s) && forall off :: off in s.offs ==> PayoutsListed(s.offs[off], s.payouts[off])
  {
    var first, ops := ReachedMeans(s);
    OperationsAreSafe(first, ops);
  }

  /** No answer of the provider is lost. */
  predicate Answered(op: Operation) {
    match op
    case AdvanceOp(_, _, _, payoutReply) => !payoutReply.Lost?
    case HandoffOp(_, reply) => !reply.Lost?
    case RetryOp(_, _, reply) => !reply.Lost?
    case CreditOp(_, _, reply) => !reply.Lost?
    case _ => true
  }

  predicate AllAnswered(ops: seq<Operation>) {
    forall k :: 0 <= k < |ops| ==> Answered(ops[k])
  }

  lemma HandoffKept(s: State, off: nat, reply: Reply)
    requires !reply.Lost?
    ensures AllAnswersKept(HandoffSteps(s, off, reply))
  {
  }

  lemma RetryKept(s: State, off: nat, loads: bool, reply: Reply)
    requires Keyed(s) && !reply.Lost?
    ensures AllAnswersKept(RetrySteps(s, off, loads, reply))
  {
  }

  lemma CreditKept(s: State, off: nat, amount: real, reply: Reply)
    requires Keyed(s) && !reply.Lost?
    ensures AllAnswersKept(CreditSteps(s, off, amount, reply))
  {
    if Writes(s, off, Credit(amount)) { HandoffKept(Written(s, off, Credit(amount)), off, reply); }
  }

  lemma KeptCons(step: Step, rest: seq<Step>)
    requires AnswerKept(step) && AllAnswersKept(rest)
    ensures AllAnswersKept([step] + rest)
  {
  }

  lemma SettleKept(s: State, on: nat, off: nat, amount: real, now: int, reply: Reply)
    requires on in s.ons && off in s.offs && !reply.Lost?
    ensures AllAnswersKept([Advance(0, on, now)] + (
              [ClaimStep(0)] + ([CompleteStep(0)] + HandoffSteps(SettledState(s, on, off, amount), off, reply))))
  {
    var handoff := HandoffSteps(SettledState(s, on, off, amount), off, reply);
    HandoffKept(SettledState(s, on, off, amount), off, reply);
    KeptCons(CompleteStep(0), handoff);
    KeptCons(ClaimStep(0), [CompleteStep(0)] + handoff);
    KeptCons(Advance(0, on, now), [ClaimStep(0)] + ([CompleteStep(0)] + handoff));
  }

  lemma AdvanceKept(s: State, on: nat, now: int, reply: Reply, payoutReply: Reply)
    requires !payoutReply.Lost?
    ensures AllAnswersKept(AdvanceSteps(s, on, now, reply, payoutReply))
  {
    if on in s.ons {
      var into := SettlesInto(s.ons[on], s.offs, now);
      if into.Some? {
        SettleKept(s, on, into.value, CheckPair(s.ons[on].info, s.offs[into.value], now).amount, now, payoutReply);
      } else {
        KeptCons(Advance(0, on, now), if Sends(s.ons[on]) then Runs.SendSteps(reply) else []);
      }
    }
  }

  lemma OpAnswersKept(s: State, op: Operation)
    requires Keyed(s) && Answered(op)
    ensures AllAnswersKept(OpSteps(s, op))
  {
    match op
    case AdvanceOp(on, now, reply, payoutReply) => AdvanceKept(s, on, now, reply, payoutReply);
    case HandoffOp(off, reply) => HandoffKept(s, off, reply);
    case RetryOp(off, loads, reply) =>
      HandoffKept(s, off, reply);
      RetryKept(s, off, loads, reply);
    case CreditOp(off, amount, reply) => CreditKept(s, off, amount, reply);
    case _ => SingleKept(s, op);
  }

  lemma SingleKept(s: State, op: Operation)
    requires Keyed(s) && (op.RowOp? || op.OnrampOp? || op.EventOp? || op.ProviderOp?)
    ensures AllAnswersKept(OpSteps(s, op))
  {
  }

  lemma {:induction false} AnswersKept(s: State, ops: seq<Operation>)
    requires Keyed(s) && AllAnswered(ops)
    ensures AllAnswersKept(AllSteps(s, ops))
    decreases |ops|
  {
    if ops != [] {
      OpAnswersKept(s, ops[0]);
      assert AllAnswered(ops[1..]);
      AnswersKept(Perform(s, ops[0]), ops[1..]);
    }
  }

  /** And when no answer is lost, every row lists exactly its payouts. */
  lemma AnsweredOperationsListAll(s: State, ops: seq<Operation>, off: nat)
    requires Init(s) && AllAllowed(s, ops) && AllAnswered(ops) && off in PerformAll(s, ops).offs
    ensures var e := PerformAll(s, ops);
            off in e.payouts && PayoutIds(e.payouts[off]) == Listed(e.offs[off])
  {
    OperationsRun(s, ops);
    AnswersKept(s, ops);
    RowListsItsChain(s, AllSteps(s, ops), off);
  }

  /** Nothing that follows takes back the evidence that an offramp's crypto arrived. */
  lemma OperationsKeepEvidence(s: State, first: seq<Operation>, rest: seq<Operation>, off: nat)
    requires Init(s) && AllAllowed(s, first) && AllAllowed(PerformAll(s, first), rest)
    requires off in PerformAll(s, first).offs && CryptoEvidence(PerformAll(s, first).offs[off].timeline)
    ensures var e := PerformAll(PerformAll(s, first), rest);
            off in e.offs && CryptoEvidence(e.offs[off].timeline)
  {
    OperationsRun(s, first);
    OperationsRun(PerformAll(s, first), rest);
    EvidenceIsNeverErased(s, AllSteps(s, first), AllSteps(PerformAll(s, first), rest), off);
  }
}
