/** What every run of fee settlements keeps, and the operations as the source runs them. */
module FeeRuns {
  import opened Wrappers
  import opened FeeSettlement

  /** `RampStep` stands for the ramp's other operations, which change its status. */
  datatype Step =
    | QueueStep(id: nat, networks: Networks)
    | SettleStep(id: nat, networks: Networks, attempt: Attempt)
    | WebhookStep(id: nat, withdrawalId: nat, succeeded: bool)
    | LpStep(key: Key, next: LpState)
    | RampStep(id: nat, completed: bool)

  /** Webhooks tell the truth about the ramp's own withdrawal. */
  predicate Enabled(s: State, step: Step) {
    match step
    case QueueStep(id, _) => id in s.rows
    case SettleStep(id, _, _) => id in s.rows
    case WebhookStep(id, withdrawalId, succeeded) =>
      id in s.rows && KeyOf(s.rows[id]) in s.lp &&
      var w := s.lp[KeyOf(s.rows[id])];
      w.id == withdrawalId && w.state == if succeeded then LpSuccessful else LpFailed
    case LpStep(key, _) => key in s.lp
    case RampStep(id, _) => id in s.rows
  }

  function Apply(s: State, step: Step): State
    requires Enabled(s, step)
  {
    match step
    case QueueStep(id, networks) => Queue(s, id, networks).0
    case SettleStep(id, networks, attempt) => Settle(s, id, networks, attempt).0
    case WebhookStep(id, withdrawalId, succeeded) => Deliver(s, id, withdrawalId, succeeded)
    case LpStep(key, next) => Moved(s, key, next)
    case RampStep(id, completed) => WithRow(s, id, s.rows[id].(completed := completed))
  }

  predicate Legal(s: State, steps: seq<Step>)
    decreases |steps|
  {
    steps == [] || (Enabled(s, steps[0]) && Legal(Apply(s, steps[0]), steps[1..]))
  }

  function Exec(s: State, steps: seq<Step>): State
    requires Legal(s, steps)
    decreases |steps|
  {
    if steps == [] then s else Exec(Apply(s, steps[0]), steps[1..])
  }

  /** References are unique, nothing is queued and the provider has no fee withdrawal yet. */
  predicate Init(s: State) {
    UniqueRefs(s) && s.lp == map[] && forall id :: id in s.rows ==> SettlementOf(s.rows[id]) == None
  }

  predicate UniqueRefs(s: State) {
    forall i, j :: i in s.rows && j in s.rows && i != j && s.rows[i].txnRef != "" ==> KeyOf(s.rows[i]) != KeyOf(s.rows[j])
  }

  // ---------- the invariant ----------

  /** The withdrawal pays this fee, converted to its asset. */
  predicate Pays(fee: Fee, w: Withdrawal) {
    fee.amount.Some? && fee.amount.value > 0.0 && fee.currency.Stable? &&
    w.amount == ConvertUsdtUsdc(fee.amount.value, fee.currency.asset, w.asset)
  }

  /** A ramp and the withdrawal under its key, if there is one. */
  predicate RowOk(row: Row, w: Option<Withdrawal>) {
    var st := SettlementOf(row);
    && (w.Some? ==> row.txnRef != "" && row.fee.Some? && Pays(row.fee.value, w.value) && st.Some? && !st.value.status.Pending?)
    && (st.Some? && st.value.withdrawalId.Some? ==> w.Some? && st.value.withdrawalId.value == w.value.id)
    && (st.Some? && st.value.status.Processing? ==> st.value.withdrawalId.Some?)
    && (st.Some? && st.value.status.Completed? ==> st.value.withdrawalId.Some? && w.Some? && w.value.state.LpSuccessful?)
  }

  function At(s: State, key: Key): Option<Withdrawal> {
    if key in s.lp then Some(s.lp[key]) else None
  }

  ghost predicate Inv(s: State) {
    && UniqueRefs(s)
    && (forall id :: id in s.rows ==> RowOk(s.rows[id], At(s, KeyOf(s.rows[id]))))
    && (forall key :: key in s.lp ==> exists id :: id in s.rows && KeyOf(s.rows[id]) == key)
  }

  /** A step that changes one ramp and at most the withdrawal under its key. */
  lemma OneRowInv(s: State, s': State, id: nat)
    requires Inv(s) && id in s.rows && s'.rows.Keys == s.rows.Keys && KeyOf(s'.rows[id]) == KeyOf(s.rows[id])
    requires forall i :: i in s.rows && i != id ==> s'.rows[i] == s.rows[i]
    requires forall key :: key != KeyOf(s.rows[id]) ==> At(s', key) == At(s, key)
    requires RowOk(s'.rows[id], At(s', KeyOf(s.rows[id])))
    ensures Inv(s')
  {
    var key := KeyOf(s.rows[id]);
    forall i | i in s'.rows ensures RowOk(s'.rows[i], At(s', KeyOf(s'.rows[i]))) {
      if i != id && KeyOf(s.rows[i]) == key {
        assert s.rows[i].txnRef == "";
        assert RowOk(s.rows[i], At(s, key));
        assert At(s', key).None?;
      }
    }
    forall k | k in s'.lp ensures exists i :: i in s'.rows && KeyOf(s'.rows[i]) == k {
      if k == key {
        assert KeyOf(s'.rows[id]) == k;
      } else {
        assert At(s', k) == At(s, k);
        var i :| i in s.rows && KeyOf(s.rows[i]) == k;
        assert KeyOf(s'.rows[i]) == k;
      }
    }
  }

  /** Saving a patch keeps the fee itself, the kind and the reference. */
  lemma SavedKeepsFee(row: Row, patch: Patch)
    ensures var r := SavedFee(row, patch);
            && KeyOf(r) == KeyOf(row) && r.fee.Some? && SettlementOf(r).Some?
            && SettlementOf(r).value.status == patch.status
            && SettlementOf(r).value.withdrawalId ==
                 (if patch.withdrawalId.Put? then Some(patch.withdrawalId.id)
                  else if SettlementOf(row).Some? then SettlementOf(row).value.withdrawalId else None)
            && (row.fee.Some? ==> r.fee.value.amount == row.fee.value.amount && r.fee.value.currency == row.fee.value.currency)
  {
  }

  lemma QueueInv(s: State, id: nat, networks: Networks)
    requires Inv(s) && id in s.rows
    ensures Inv(Queue(s, id, networks).0)
  {
    var row := s.rows[id];
    assert RowOk(row, At(s, KeyOf(row)));
    if row.completed && SettlementOf(row).None? {
      var patch := match CheckFee(row, networks)
        case Unpayable(notes) => Patch(Skipped, Keep, notes)
        case Payable(_, _, _) => Patch(Pending, Keep, []);
      SavedKeepsFee(row, patch);
      OneRowInv(s, WithRow(s, id, SavedFee(row, patch)), id);
    }
  }

  /** What an attempt does to the withdrawal under the ramp's key. */
  lemma AttemptWithdrawal(s: State, row: Row, networks: Networks, attempt: Attempt)
    requires CheckFee(row, networks).Payable? && RowOk(row, At(s, KeyOf(row)))
    requires SettlementOf(row).Some?
    ensures var key := KeyOf(row);
            var created := AfterCreate(s, key, CheckFee(row, networks), attempt.reply);
            var after := if attempt.moved.Some? then Moved(created, key, attempt.moved.value) else created;
            && row.txnRef != "" && created.rows == s.rows && after.rows == s.rows
            && (forall k :: k != key ==> At(after, k) == At(s, k))
            && (At(after, key).Some? ==> row.fee.Some? && Pays(row.fee.value, At(after, key).value))
            && (At(s, key).Some? ==> At(created, key) == At(s, key))
            && (key in created.lp <==> key in after.lp)
            && (key in created.lp ==> created.lp[key].id == after.lp[key].id &&
                                      (!created.lp[key].state.LpPending? ==> after.lp[key] == created.lp[key]))
  {
    CheckIsExact(row, networks);
    RecordIsUsable(row);
  }

  lemma AttemptInv(s: State, id: nat, networks: Networks, attempt: Attempt)
    requires Inv(s) && id in s.rows && SettlementOf(s.rows[id]).Some? && CheckFee(s.rows[id], networks).Payable?
    ensures var row := s.rows[id];
            var created := AfterCreate(s, KeyOf(row), CheckFee(row, networks), attempt.reply);
            var after := if attempt.moved.Some? then Moved(created, KeyOf(row), attempt.moved.value) else created;
            Inv(WithRow(after, id, SavedFee(row, AttemptPatch(Live(created, after, KeyOf(row), attempt)))))
  {
    var row := s.rows[id];
    var key := KeyOf(row);
    assert RowOk(row, At(s, key));
    AttemptWithdrawal(s, row, networks, attempt);
    var created := AfterCreate(s, key, CheckFee(row, networks), attempt.reply);
    var after := if attempt.moved.Some? then Moved(created, key, attempt.moved.value) else created;
    var patch := AttemptPatch(Live(created, after, key, attempt));
    SavedKeepsFee(row, patch);
    LiveIsOurs(row, At(s, key), created, after, attempt);
    OneRowInv(s, WithRow(after, id, SavedFee(row, patch)), id);
  }

  lemma SettleInv(s: State, id: nat, networks: Networks, attempt: Attempt)
    requires Inv(s) && id in s.rows
    ensures Inv(Settle(s, id, networks, attempt).0)
  {
    var row := s.rows[id];
    if row.completed && SettlementOf(row).Some? && (SettlementOf(row).value.status.Pending? || SettlementOf(row).value.status.Failed?) {
      match CheckFee(row, networks)
      case Unpayable(notes) =>
        assert RowOk(row, At(s, KeyOf(row)));
        SavedKeepsFee(row, Patch(Skipped, Keep, notes));
        OneRowInv(s, WithRow(s, id, SavedFee(row, Patch(Skipped, Keep, notes))), id);
      case Payable(_, _, _) => AttemptInv(s, id, networks, attempt);
    }
  }

  /** The row an attempt leaves agrees with the withdrawal. */
  lemma LiveIsOurs(row: Row, before: Option<Withdrawal>, created: State, after: State, attempt: Attempt)
    requires RowOk(row, before) && row.txnRef != "" && SettlementOf(row).Some?
    requires var key := KeyOf(row);
             && (attempt.reply.Accepted? ==> key in created.lp)
             && (key in created.lp <==> key in after.lp)
             && (key in created.lp ==> created.lp[key].id == after.lp[key].id &&
                                       (!created.lp[key].state.LpPending? ==> after.lp[key] == created.lp[key]))
             && (key in after.lp ==> row.fee.Some? && Pays(row.fee.value, after.lp[key]))
             && (before.Some? ==> key in after.lp && after.lp[key].id == before.value.id)
    ensures RowOk(SavedFee(row, AttemptPatch(Live(created, after, KeyOf(row), attempt))), At(after, KeyOf(row)))
  {
    SavedKeepsFee(row, AttemptPatch(Live(created, after, KeyOf(row), attempt)));
  }

  lemma DeliverInv(s: State, id: nat, withdrawalId: nat, succeeded: bool)
    requires Inv(s) && Enabled(s, WebhookStep(id, withdrawalId, succeeded))
    ensures Inv(Deliver(s, id, withdrawalId, succeeded))
  {
    var row := s.rows[id];
    assert RowOk(row, At(s, KeyOf(row)));
    SavedKeepsFee(row, WebhookPatch(withdrawalId, succeeded));
    OneRowInv(s, Deliver(s, id, withdrawalId, succeeded), id);
  }

  lemma LpInv(s: State, key: Key, next: LpState)
    requires Inv(s) && key in s.lp
    ensures Inv(Moved(s, key, next))
  {
    var id :| id in s.rows && KeyOf(s.rows[id]) == key;
    assert RowOk(s.rows[id], At(s, key));
    OneRowInv(s, Moved(s, key, next), id);
  }

  lemma StepInv(s: State, step: Step)
    requires Inv(s) && Enabled(s, step)
    ensures Inv(Apply(s, step))
  {
    match step
    case QueueStep(id, networks) => QueueInv(s, id, networks);
    case SettleStep(id, networks, attempt) => SettleInv(s, id, networks, attempt);
    case WebhookStep(id, withdrawalId, succeeded) => DeliverInv(s, id, withdrawalId, succeeded);
    case LpStep(key, next) => LpInv(s, key, next);
    case RampStep(id, completed) =>
      assert RowOk(s.rows[id], At(s, KeyOf(s.rows[id])));
      OneRowInv(s, Apply(s, step), id);
  }

  lemma {:induction false} RunInv(s: State, steps: seq<Step>)
    requires Inv(s) && Legal(s, steps)
    ensures Inv(Exec(s, steps))
    decreases |steps|
  {
    if steps != [] {
      StepInv(s, steps[0]);
      RunInv(Apply(s, steps[0]), steps[1..]);
    }
  }

  /** Every withdrawal has its own id. */
  ghost predicate IdsOk(s: State) {
    (forall key :: key in s.lp ==> s.lp[key].id < s.nextId) &&
    (forall j, k :: j in s.lp && k in s.lp && j != k ==> s.lp[j].id != s.lp[k].id)
  }

  lemma StepIds(s: State, step: Step)
    requires IdsOk(s) && Enabled(s, step)
    ensures IdsOk(Apply(s, step))
  {
    hide CheckFee, SavedFee;
  }

  lemma {:induction false} RunIds(s: State, steps: seq<Step>)
    requires IdsOk(s) && Legal(s, steps)
    ensures IdsOk(Exec(s, steps))
    decreases |steps|
  {
    if steps != [] {
      StepIds(s, steps[0]);
      RunIds(Apply(s, steps[0]), steps[1..]);
    }
  }

  // ---------- the main results ----------

  /**
   In every run each fee withdrawal at the provider belongs to exactly one ramp and pays that ramp's stored fee converted
   to the withdrawal's asset, under an id of its own; a completed settlement has a withdrawal that succeeded; one in flight
   has a withdrawal.
   */
  lemma FeesArePaidOnceAndRight(s: State, steps: seq<Step>)
    requires Init(s) && Legal(s, steps)
    ensures var e := Exec(s, steps);
            && (forall key :: key in e.lp ==> exists id :: id in e.rows && KeyOf(e.rows[id]) == key)
            && (forall j, k :: j in e.lp && k in e.lp && j != k ==> e.lp[j].id != e.lp[k].id)
            && (forall i, j :: i in e.rows && j in e.rows && KeyOf(e.rows[i]) in e.lp && KeyOf(e.rows[j]) == KeyOf(e.rows[i]) ==> i == j)
            && (forall id :: id in e.rows && KeyOf(e.rows[id]) in e.lp ==>
                  e.rows[id].fee.Some? && Pays(e.rows[id].fee.value, e.lp[KeyOf(e.rows[id])]))
            && (forall id :: id in e.rows && SettlementOf(e.rows[id]).Some? && SettlementOf(e.rows[id]).value.status.Completed? ==>
                  KeyOf(e.rows[id]) in e.lp && e.lp[KeyOf(e.rows[id])].state.LpSuccessful? &&
                  SettlementOf(e.rows[id]).value.withdrawalId == Some(e.lp[KeyOf(e.rows[id])].id))
            && (forall id :: id in e.rows && SettlementOf(e.rows[id]).Some? && SettlementOf(e.rows[id]).value.status.Processing? ==>
                  KeyOf(e.rows[id]) in e.lp)
  {
    RunInv(s, steps);
    RunIds(s, steps);
    var e := Exec(s, steps);
    forall id | id in e.rows ensures RowOk(e.rows[id], At(e, KeyOf(e.rows[id]))) {}
  }

  /** A settlement that is completed or skipped is never touched again, and neither is the provider on its behalf. */
  lemma FinalIsKept(s: State, step: Step, id: nat)
    requires Enabled(s, step) && id in s.rows && SettlementOf(s.rows[id]).Some?
    requires SettlementOf(s.rows[id]).value.status.Completed? || SettlementOf(s.rows[id]).value.status.Skipped?
    ensures id in Apply(s, step).rows && Apply(s, step).rows[id].fee == s.rows[id].fee
    ensures (step.QueueStep? || step.SettleStep?) && step.id == id ==> Apply(s, step) == s
  {
  }

  // ---------- webhooks ----------

  datatype Delivery = Delivery(withdrawalId: nat, succeeded: bool)

  function DeliveredAll(row: Row, events: seq<Delivery>): Row {
    if events == [] then row
    else
      var n := |events| - 1;
      DeliveredRow(DeliveredAll(row, events[..n]), events[n].withdrawalId, events[n].succeeded)
  }

  /**
   Webhooks of one withdrawal, in any order and number: the settlement ends completed exactly when a success is among
   them, failed when there are only failures.
   */
  lemma {:induction false} WebhooksConverge(row: Row, events: seq<Delivery>, withdrawalId: nat)
    requires Applies(row, withdrawalId) && forall i :: 0 <= i < |events| ==> events[i].withdrawalId == withdrawalId
    ensures var st := SettlementOf(DeliveredAll(row, events));
            && st.Some? && st.value.withdrawalId in {None, Some(withdrawalId)}
            && (st.value.status.Completed? <==> exists i :: 0 <= i < |events| && events[i].succeeded)
            && (!st.value.status.Completed? ==>
                  st.value.status == if events == [] then SettlementOf(row).value.status else Failed)
  {
    if events != [] {
      var n := |events| - 1;
      WebhooksConverge(row, events[..n], withdrawalId);
      var before := DeliveredAll(row, events[..n]);
      SavedKeepsFee(before, WebhookPatch(withdrawalId, events[n].succeeded));
      assert (exists i :: 0 <= i < n && events[i].succeeded) <==> exists i :: 0 <= i < n && events[..n][i].succeeded;
    }
  }

  // ---------- what does not hold ----------

  /**
   An approval that ends `skipped` on its validation leaves a withdrawal at the provider exactly when there was one
   before: only an earlier failed attempt can have made it, never a first approval.
   */
  lemma SkippedHasWithdrawalExactly(s: State, id: nat, networks: Networks, attempt: Attempt)
    requires Inv(s) && id in s.rows && s.rows[id].completed && CheckFee(s.rows[id], networks).Unpayable?
    requires SettlementOf(s.rows[id]).Some?
    requires SettlementOf(s.rows[id]).value.status.Pending? || SettlementOf(s.rows[id]).value.status.Failed?
    ensures var e := Settle(s, id, networks, attempt).0;
            SettlementOf(e.rows[id]).value.status.Skipped? &&
            (KeyOf(e.rows[id]) in e.lp <==> KeyOf(s.rows[id]) in s.lp) &&
            (SettlementOf(s.rows[id]).value.status.Pending? ==> KeyOf(e.rows[id]) !in e.lp)
  {
    assert RowOk(s.rows[id], At(s, KeyOf(s.rows[id])));
  }

  /**
   And a failed attempt does make one: the reply is lost and the read fails, the row says failed while the provider
   pays; skipped on the next approval, the row ignores the provider's success.
   */
  lemma SkippedCanHideAPayment(s: State, id: nat, good: Networks, bad: Networks)
    requires Inv(s) && id in s.rows && s.rows[id].completed
    requires SettlementOf(s.rows[id]).Some? && SettlementOf(s.rows[id]).value.status.Pending?
    requires CheckFee(s.rows[id], good).Payable? && forall a :: bad(a).None?
    ensures var s1 := Settle(s, id, good, Attempt(Lost, None, false)).0;
            var s2 := Settle(s1, id, bad, Attempt(Rejected, None, false)).0;
            var s3 := Moved(s2, KeyOf(s.rows[id]), LpSuccessful);
            && SettlementOf(s1.rows[id]).value.status.Failed?
            && SettlementOf(s2.rows[id]).value.status.Skipped?
            && At(s3, KeyOf(s.rows[id])).Some? && At(s3, KeyOf(s.rows[id])).value.state.LpSuccessful?
            && Deliver(s3, id, At(s3, KeyOf(s.rows[id])).value.id, true).rows[id] == s2.rows[id]
  {
    var row := s.rows[id];
    assert RowOk(row, At(s, KeyOf(row)));
    var s1 := Settle(s, id, good, Attempt(Lost, None, false)).0;
    SavedKeepsFee(row, Patch(Failed, Keep, [RequestFailed]));
    assert s1.rows[id] == SavedFee(row, Patch(Failed, Keep, [RequestFailed]));
    assert CheckFee(s1.rows[id], bad).Unpayable?;
  }

  lemma RunCons(s: State, step: Step, rest: seq<Step>)
    requires Enabled(s, step) && Legal(Apply(s, step), rest)
    ensures Legal(s, [step] + rest) && Exec(s, [step] + rest) == Exec(Apply(s, step), rest)
  {
    assert ([step] + rest)[1..] == rest;
  }

  function HidingRun(id: nat, key: Key, good: Networks, bad: Networks): seq<Step> {
    [QueueStep(id, good)] + ([SettleStep(id, good, Attempt(Lost, None, false))] + (
      [SettleStep(id, bad, Attempt(Rejected, None, false))] + ([LpStep(key, LpSuccessful)] + [])))
  }

  lemma HidingRunExecutes(s: State, id: nat, key: Key, good: Networks, bad: Networks)
    requires id in s.rows
    requires key in Settle(Settle(Queue(s, id, good).0, id, good, Attempt(Lost, None, false)).0, id, bad, Attempt(Rejected, None, false)).0.lp
    ensures Legal(s, HidingRun(id, key, good, bad))
    ensures Exec(s, HidingRun(id, key, good, bad)) ==
              Moved(Settle(Settle(Queue(s, id, good).0, id, good, Attempt(Lost, None, false)).0, id, bad, Attempt(Rejected, None, false)).0,
                    key, LpSuccessful)
  {
    var s1 := Apply(s, QueueStep(id, good));
    var s2 := Apply(s1, SettleStep(id, good, Attempt(Lost, None, false)));
    var s3 := Apply(s2, SettleStep(id, bad, Attempt(Rejected, None, false)));
    RunCons(s3, LpStep(key, LpSuccessful), []);
    RunCons(s2, SettleStep(id, bad, Attempt(Rejected, None, false)), [LpStep(key, LpSuccessful)] + []);
    RunCons(s1, SettleStep(id, good, Attempt(Lost, None, false)),
      [SettleStep(id, bad, Attempt(Rejected, None, false))] + ([LpStep(key, LpSuccessful)] + []));
    RunCons(s, QueueStep(id, good), [SettleStep(id, good, Attempt(Lost, None, false))] + (
      [SettleStep(id, bad, Attempt(Rejected, None, false))] + ([LpStep(key, LpSuccessful)] + [])));
  }

  /** So from fresh rows, every completed ramp whose fee can be paid can end skipped and paid, and stay that way. */
  lemma HiddenPaymentIsReachable(s: State, id: nat, good: Networks, bad: Networks)
    requires Init(s) && id in s.rows && s.rows[id].completed && CheckFee(s.rows[id], good).Payable? && forall a :: bad(a).None?
    ensures var key := KeyOf(s.rows[id]);
            && Legal(s, HidingRun(id, key, good, bad))
            && var e := Exec(s, HidingRun(id, key, good, bad));
               && id in e.rows && SettlementOf(e.rows[id]).Some? && SettlementOf(e.rows[id]).value.status.Skipped?
               && key in e.lp && e.lp[key].state.LpSuccessful?
               && Deliver(e, id, e.lp[key].id, true).rows[id] == e.rows[id]
  {
    var q := Queue(s, id, good).0;
    QueueInv(s, id, good);
    SavedKeepsFee(s.rows[id], Patch(Pending, Keep, []));
    assert q.rows[id] == SavedFee(s.rows[id], Patch(Pending, Keep, []));
    SkippedCanHideAPayment(q, id, good, bad);
    HidingRunExecutes(s, id, KeyOf(s.rows[id]), good, bad);
  }

  // ---------- an approval split at its call ----------

  /** The provider's side of an approval that is accepted and reads nothing further. */
  function Called(s: State, id: nat, networks: Networks): State
    requires id in s.rows && CheckFee(s.rows[id], networks).Payable?
  {
    AfterCreate(s, KeyOf(s.rows[id]), CheckFee(s.rows[id], networks), Accepted)
  }

  /** The save that ends it, from the row `read` at its start. */
  function Saved(s: State, id: nat, read: Row, live: Withdrawal): State {
    WithRow(s, id, SavedFee(read, AttemptPatch(Some(live))))
  }

  predicate CanApprove(s: State, id: nat, networks: Networks) {
    id in s.rows && Approvable(s.rows[id]) && CheckFee(s.rows[id], networks).Payable?
  }

  /** With nothing in between, the two halves are the approval. */
  lemma ApprovalSplits(s: State, id: nat, networks: Networks)
    requires CanApprove(s, id, networks)
    ensures var m := Called(s, id, networks);
            KeyOf(s.rows[id]) in m.lp &&
            Saved(m, id, s.rows[id], m.lp[KeyOf(s.rows[id])]) == Settle(s, id, networks, Attempt(Accepted, None, false)).0
  {
  }

  /**
   A success that the provider reports between the call and the save is lost: a pending settlement ignores the webhook, a
   failed one is overwritten by the save from the row read earlier. Either way the settlement stays in processing, no
   approval touches it again, and only a redelivery of the webhook completes it.
   */
  lemma WebhookDuringApprovalIsLost(s: State, id: nat, networks: Networks)
    requires Inv(s) && CanApprove(s, id, networks)
    requires var key := KeyOf(s.rows[id]); key in s.lp ==> s.lp[key].state.LpPending?
    ensures var row, key := s.rows[id], KeyOf(s.rows[id]);
            var m := Called(s, id, networks);
            && key in m.lp
            && var live := m.lp[key];
               var paid := Deliver(Moved(m, key, LpSuccessful), id, live.id, true);
               var e := Saved(paid, id, row, live);
               && (SettlementOf(row).value.status.Pending? <==> paid.rows[id] == row)
               && (SettlementOf(row).value.status.Failed? ==> SettlementOf(paid.rows[id]).value.status.Completed?)
               && e.lp[key].state.LpSuccessful? && SettlementOf(e.rows[id]).value.status.Processing?
               && (forall n, attempt :: Settle(e, id, n, attempt) == (e, AlreadySettled))
               && SettlementOf(Deliver(e, id, live.id, true).rows[id]).value.status.Completed?
  {
    var row, key := s.rows[id], KeyOf(s.rows[id]);
    assert RowOk(row, At(s, key));
    var live := Called(s, id, networks).lp[key];
    SavedKeepsFee(row, AttemptPatch(Some(live)));
    SavedKeepsFee(row, WebhookPatch(live.id, true));
    SavedKeepsFee(SavedFee(row, AttemptPatch(Some(live))), WebhookPatch(live.id, true));
  }

  /** Once the provider's withdrawal failed, no approval can pay the fee: the key replays the failed withdrawal. */
  lemma DeadWithdrawalIsNeverPaid(s: State, id: nat, networks: Networks, attempt: Attempt)
    requires Inv(s) && id in s.rows && SettlementOf(s.rows[id]).Some?
    requires KeyOf(s.rows[id]) in s.lp && s.lp[KeyOf(s.rows[id])].state.LpFailed?
    ensures var e := Settle(s, id, networks, attempt).0;
            e.lp == s.lp && SettlementOf(e.rows[id]).Some? && !SettlementOf(e.rows[id]).value.status.Completed? &&
            (SettlementOf(s.rows[id]).value.status.Failed? ==>
               SettlementOf(e.rows[id]).value.status.Failed? || SettlementOf(e.rows[id]).value.status.Skipped?)
  {
    assert RowOk(s.rows[id], At(s, KeyOf(s.rows[id])));
  }

  /** Every fee save of an offramp sets its status to completed; a late webhook revives a ramp that has left that status. */
  lemma FeeWebhookRevivesOfframpsOnly(row: Row, withdrawalId: nat, succeeded: bool)
    requires !row.completed
    ensures DeliveredRow(row, withdrawalId, succeeded).completed <==> row.kind.OfframpKind? && Applies(row, withdrawalId)
  {
  }

  /** A fee approved, the ramp moved on, the withdrawal paid, and its webhook. */
  function LateWebhookRun(id: nat, key: Key, networks: Networks): seq<Step> {
    [QueueStep(id, networks)] + ([SettleStep(id, networks, Attempt(Accepted, None, false))] + (
      [RampStep(id, false)] + ([LpStep(key, LpSuccessful)] + [])))
  }

  /** From fresh rows: an offramp that has left the completed status while its fee was in flight is set back by the webhook. */
  lemma RevivedIsReachable(s: State, id: nat, networks: Networks)
    requires Init(s) && id in s.rows && s.rows[id].completed && s.rows[id].kind == OfframpKind && CheckFee(s.rows[id], networks).Payable?
    ensures var run := LateWebhookRun(id, KeyOf(s.rows[id]), networks);
            && Legal(s, run)
            && var e := Exec(s, run);
               && id in e.rows && !e.rows[id].completed && Enabled(e, WebhookStep(id, s.nextId, true))
               && Apply(e, WebhookStep(id, s.nextId, true)).rows[id].completed
  {
    var row, key := s.rows[id], KeyOf(s.rows[id]);
    var s1 := Apply(s, QueueStep(id, networks));
    QueueIsExact(s, id, networks);
    assert s1.rows[id] == SavedFee(row, Patch(Pending, Keep, []));
    assert CheckFee(s1.rows[id], networks) == CheckFee(row, networks);
    var settle := SettleStep(id, networks, Attempt(Accepted, None, false));
    ApprovalIsExact(s1, id, networks, Attempt(Accepted, None, false));
    var s2 := Apply(s1, settle);
    var s3 := Apply(s2, RampStep(id, false));
    var e := Apply(s3, LpStep(key, LpSuccessful));
    hide CheckFee;
    FeeWebhookRevivesOfframpsOnly(e.rows[id], s.nextId, true);
    RunCons(s3, LpStep(key, LpSuccessful), []);
    RunCons(s2, RampStep(id, false), [LpStep(key, LpSuccessful)] + []);
    RunCons(s1, settle, [RampStep(id, false)] + ([LpStep(key, LpSuccessful)] + []));
    RunCons(s, QueueStep(id, networks), [settle] + ([RampStep(id, false)] + ([LpStep(key, LpSuccessful)] + [])));
  }

  /** Rows with distinct references and nothing queued are a beginning, whatever else they hold; blank ones may repeat. */
  lemma FreshRowsBegin(rows: map<nat, Row>, nextId: nat)
    requires forall i :: i in rows ==> SettlementOf(rows[i]).None?
    requires forall i, j :: i in rows && j in rows && i != j ==> rows[i].txnRef == "" || rows[i].txnRef != rows[j].txnRef
    ensures Init(State(rows, map[], nextId))
  {
  }

  // ---------- the operations as the source runs them ----------

  class FeeDesk {
    var rows: map<nat, Row>
    var lp: map<Key, Withdrawal>
    var nextId: nat

    function View(): State
      reads this
    {
      State(rows, lp, nextId)
    }

    /** `persistPlatformFeeSettlement`. */
    method Persist(id: nat, patch: Patch)
      requires id in rows
      modifies this`rows
      ensures rows == old(rows)[id := SavedFee(old(rows)[id], patch)]
    {
      rows := rows[id := SavedFee(rows[id], patch)];
    }

    method QueueSettlement(id: nat, networks: Networks) returns (outcome: Outcome)
      requires id in rows
      modifies this
      ensures (View(), outcome) == Queue(old(View()), id, networks)
    {
      var row := rows[id];
      if !row.completed { return NotReady; }
      var existing := SettlementOf(row);
      if existing.Some? && existing.value.status.Pending? { return AlreadyQueued; }
      if existing.Some? { return AlreadySettled; }
      var validation := ValidateSettlement(row, networks);
      if validation.Unpayable? {
        Persist(id, Patch(Skipped, Keep, validation.notes));
        return OutSkipped;
      }
      Persist(id, Patch(Pending, Keep, []));
      return OutPending;
    }

    /** `createPalremitWithdrawal` and the read by client reference. */
    method CallProvider(key: Key, check: Check, attempt: Attempt) returns (live: Option<Withdrawal>)
      requires check.Payable?
      modifies this`lp, this`nextId
      ensures var created := AfterCreate(old(View()), key, check, attempt.reply);
              var after := if attempt.moved.Some? then Moved(created, key, attempt.moved.value) else created;
              View() == after && live == Live(created, after, key, attempt)
    {
      if !attempt.reply.Rejected? && key !in lp {
        lp := lp[key := Withdrawal(nextId, check.asset, check.amount, LpPending)];
      }
      nextId := nextId + 1;
      var answered := if attempt.reply.Accepted? then Some(lp[key]) else None;
      if attempt.moved.Some? && key in lp && lp[key].state.LpPending? {
        lp := lp[key := lp[key].(state := attempt.moved.value)];
      }
      live := if attempt.readWorks && key in lp then Some(lp[key]) else answered;
    }

    method SettleFee(id: nat, networks: Networks, attempt: Attempt) returns (outcome: Outcome)
      requires id in rows
      modifies this
      ensures (View(), outcome) == Settle(old(View()), id, networks, attempt)
    {
      var row := rows[id];
      if !row.completed { return NotReady; }
      var existing := SettlementOf(row);
      if existing.None? { return NotReady; }
      if !existing.value.status.Pending? && !existing.value.status.Failed? { return AlreadySettled; }
      var validation := ValidateSettlement(row, networks);
      if validation.Unpayable? {
        Persist(id, Patch(Skipped, Keep, validation.notes));
        return OutSkipped;
      }
      var live := CallProvider(KeyOf(row), validation, attempt);
      Persist(id, AttemptPatch(live));
      return AttemptOutcome(live);
    }

    method ApplyWebhook(id: nat, withdrawalId: nat, succeeded: bool) returns (applied: bool)
      requires id in rows
      modifies this`rows
      ensures View() == Deliver(old(View()), id, withdrawalId, succeeded)
      ensures applied == Applies(old(rows)[id], withdrawalId)
    {
      var row := rows[id];
      var settlement := SettlementOf(row);
      if settlement.None? || !(settlement.value.status.Processing? || settlement.value.status.Failed?) {
        assert rows == rows[id := row];
        return false;
      }
      if settlement.value.withdrawalId.Some? && settlement.value.withdrawalId.value != withdrawalId {
        assert rows == rows[id := row];
        return false;
      }
      Persist(id, WebhookPatch(withdrawalId, succeeded));
      return true;
    }
  }
}
