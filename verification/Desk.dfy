/**
 The operations as the source runs them, one await after another on the stored rows, with nothing else in between.
 Each method leaves the state that `Runs` gives for the operation, which is the state that the machine's steps leave.
 */
module Desk {
  import opened Wrappers
  import opened Ramps
  import opened DepositAmount
  import opened PairCheck
  import opened Transfer
  import opened TransferPayouts
  import opened RowWrites
  import opened Runs
  import opened Operations
  import Text

  datatype RetryResult =
    | Initiated(withdrawalId: nat)
    | AlreadyInitiated(withdrawalId: nat)
    | FailedToInitiate
    | Reissued(withdrawalId: nat, previous: nat)
    | RetryRejected(code: string)

  /** What the dashboard's retry answers about a row with a payout, on what the provider says of that payout. */
  predicate AnswersRetry(r: RetryResult, live: Option<LpState>, loads: bool, reply: Reply) {
    var dead := loads && (live == Some(LpFailed) || live == Some(LpRefunded));
    && (r.Reissued? <==> dead && reply == Accepted)
    && (r == RetryRejected("FIAT_PAYOUT_REISSUE_FAILED") <==> dead && reply != Accepted)
    && (r == RetryRejected("PAYOUT_ALREADY_COMPLETED") <==> loads && live == Some(LpSuccessful))
    && (r == RetryRejected("PAYOUT_IN_PROGRESS") <==> loads && (live == Some(LpPending) || live == Some(LpProcessing)))
    && (r == RetryRejected("PAYOUT_STATUS_UNKNOWN") <==> !loads || live == None)
  }

  /** The rows the query for candidates returns, in its order: each candidate once. */
  ghost predicate Lists(listed: seq<nat>, ids: set<nat>) {
    (forall id :: id in listed <==> id in ids) &&
    (forall i, j :: 0 <= i < j < |listed| ==> listed[i] != listed[j])
  }

  class Desk {
    var ons: map<nat, Onramp>
    var offs: map<nat, Offramp>
    var crypto: map<nat, seq<nat>>
    var payouts: map<nat, seq<Payout>>
    var nextId: nat
    var claims: seq<Claim>

    /** The machine state in which no operation is in flight. */
    function View(): State
      reads this
    {
      State(ons, offs, map[], map[], crypto, payouts, nextId, claims)
    }

    ghost predicate Valid()
      reads this
    {
      payouts.Keys == offs.Keys && crypto.Keys == ons.Keys
    }

    /** The stored rows are what whole operations have left of fresh ones, so all that `ReachedIsSafe` says holds of them. */
    ghost predicate Safe()
      reads this
    {
      Reached(View())
    }

    /** `createPalremitOfframpFiatWithdrawal` and `reissuePalremitWithdrawal`: one keyed call to the provider. */
    method CallProvider(off: nat, key: PayoutKey, reply: Reply) returns (id: Option<nat>)
      requires Valid() && off in payouts
      modifies this`payouts, this`nextId
      ensures Valid() && nextId == old(nextId) + 1
      ensures payouts == old(payouts)[off := PayoutsAfterCall(old(payouts)[off], key, old(nextId), reply)]
      ensures id == if reply.Accepted? then Some(FindKey(payouts[off], key)) else None
    {
      var ps := PayoutsAfterCall(payouts[off], key, nextId, reply);
      payouts := payouts[off := ps];
      nextId := nextId + 1;
      id := if reply.Accepted? then Some(FindKey(ps, key)) else None;
    }

    /** `updateOfframpStatus`: the guard looks at the stored row. */
    method UpdateOfframp(off: nat, next: OffStatus, timeline: Timeline, refs: Refs)
      requires Valid() && off in offs
      modifies this`offs
      ensures Valid()
      ensures offs == old(offs)[off := old(offs)[off].(status := OfframpStatusAfter(old(offs)[off], next, false),
                                                        timeline := timeline, refs := refs)]
    {
      offs := offs[off := offs[off].(status := OfframpStatusAfter(offs[off], next, false), timeline := timeline, refs := refs)];
    }

    /** `updateOnrampStatus`, with the withdrawal id that the operation records. */
    method UpdateOnramp(on: nat, next: OnStatus, receiptWithdrawalId: Option<nat>)
      requires Valid() && on in ons
      modifies this`ons
      ensures Valid()
      ensures ons == old(ons)[on := Onramp(old(ons)[on].info, OnrampStatusAfter(old(ons)[on], next, false), receiptWithdrawalId)]
    {
      ons := ons[on := Onramp(ons[on].info, OnrampStatusAfter(ons[on], next, false), receiptWithdrawalId)];
    }

    method AdvanceOfframpIfDepositReady(off: nat, reply: Reply)
      requires Valid()
      modifies this`offs, this`payouts, this`nextId
      ensures Valid() && View() == Handed(old(View()), off, reply)
      ensures old(Safe()) ==> Safe()
    {
      ghost var before := View();
      if off !in offs { return; }
      var row := offs[off];
      if !row.status.CryptoConfirmed? { return; }
      if row.timeline.fiatWithdrawalCompleted { return; }
      if row.timeline.fiatWithdrawalId.Some? { return; }
      if !row.info.payable { return; }
      CreateFiatWithdrawal(off, reply);
      assert View() == Handed(before, off, reply);
      HandoffStaysReached(before, off, reply);
    }

    /** The call of a handoff and the write of its answer. */
    method CreateFiatWithdrawal(off: nat, reply: Reply)
      requires Valid() && off in offs
      modifies this`offs, this`payouts, this`nextId
      ensures Valid() && nextId == old(nextId) + 1
      ensures payouts == old(payouts)[off := PayoutsAfterCall(old(payouts)[off], FirstKey, old(nextId), reply)]
      ensures offs == old(offs)[off := ApplyWrite(old(offs)[off], old(offs)[off], HandoffWrite(payouts[off], reply))]
    {
      var row := offs[off];
      var id := CallProvider(off, FirstKey, reply);
      if id.None? {
        RecordHandoffError(off);
      } else {
        RecordPayout(off, id.value);
      }
    }

    /** The row stays confirmed and can be retried. */
    method RecordHandoffError(off: nat)
      requires Valid() && off in offs
      modifies this`offs
      ensures Valid() && offs == old(offs)[off := ApplyWrite(old(offs)[off], old(offs)[off], HandoffErrorWrite)]
    {
      var row := offs[off];
      UpdateOfframp(off, OffStatus.CryptoConfirmed, row.timeline, row.refs);
    }

    /** The first payout becomes the row's current one. */
    method RecordPayout(off: nat, id: nat)
      requires Valid() && off in offs
      modifies this`offs
      ensures Valid() && offs == old(offs)[off := ApplyWrite(old(offs)[off], old(offs)[off], FirstWrite(id))]
    {
      var row := offs[off];
      UpdateOfframp(off, OffStatus.FiatPending, row.timeline.(fiatWithdrawalId := Some(id)), row.refs.(palremitWithdrawalId := Some(id)));
    }

    /** The new payout becomes the row's current one and the old one is listed as superseded. */
    method RecordReissue(off: nat, newId: nat, oldId: nat)
      requires Valid() && off in offs
      modifies this`offs
      ensures Valid() && offs == old(offs)[off := ApplyWrite(old(offs)[off], old(offs)[off], ReissueWrite(newId, oldId))]
    {
      var row := offs[off];
      UpdateOfframp(off, OffStatus.FiatPending, row.timeline.(fiatWithdrawalId := Some(newId), fiatWithdrawalCompleted := false),
                    Refs(Some(newId), row.refs.superseded + [oldId], false));
    }

    /** `cancelOfframp`: only before any crypto was seen. */
    method CancelOfframp(off: nat) returns (cancelled: bool)
      requires Valid()
      modifies this`offs
      ensures Valid() && cancelled == (off in old(offs) && (old(offs)[off].status.Created? || old(offs)[off].status.AwaitingCrypto?))
      ensures View() == if cancelled then Written(old(View()), off, Cancel) else old(View())
      ensures old(Safe()) ==> Safe()
    {
      if Writes(View(), off, Cancel) { WriteStaysReached(View(), off, Cancel); }
      if off !in offs { return false; }
      var row := offs[off];
      if !row.status.Created? && !row.status.AwaitingCrypto? { return false; }
      UpdateOfframp(off, OffStatus.Cancelled, row.timeline, row.refs);
      return true;
    }

    /** `deposit.credited`: amounts add up, and the handoff follows when they reach the quoted deposit. */
    method CreditDeposit(off: nat, incoming: Option<real>, reply: Reply)
      requires Valid() && (incoming.Some? ==> incoming.value >= 0.0)
      modifies this`offs, this`payouts, this`nextId
      ensures Valid()
      ensures View() == if incoming.Some? then CreditedState(old(View()), off, incoming.value, reply) else old(View())
      ensures incoming.Some? && off in old(offs) ==>
                CreditedOff(old(offs)[off], offs[off], old(payouts)[off], payouts[off], incoming.value, reply)
      ensures old(Safe()) ==> Safe()
    {
      if incoming.Some? {
        CreditStaysReached(View(), off, incoming.value, reply);
        if off in offs { CreditLeaves(View(), off, incoming.value, reply); }
      }
      hide CreditedOff, OnlyOfframp;
      if off !in offs { return; }
      var row := offs[off];
      if !row.status.AwaitingCrypto? && !row.status.CryptoPending? && !row.status.CryptoReceived? && !row.status.Expired? { return; }
      var expected := Expected(row.info);
      if incoming.None? || expected.None? { return; }
      var total := PriorReceived(row.timeline) + incoming.value;
      var complete := DepositComplete(total, expected.value, row.info.sourceCurrency);
      RecordCredit(off, incoming.value, total, complete);
      if complete {
        AdvanceOfframpIfDepositReady(off, reply);
      }
    }

    method RecordCredit(off: nat, incoming: real, total: real, complete: bool)
      requires Valid() && off in offs && OpEnabled(offs[off], Credit(incoming))
      requires total == CreditedTotal(offs[off], incoming) && complete == CreditCompletes(offs[off], incoming)
      modifies this`offs
      ensures Valid() && View() == Written(old(View()), off, Credit(incoming))
    {
      var row := offs[off];
      UpdateOfframp(off, if complete then OffStatus.CryptoConfirmed else OffStatus.CryptoReceived,
        row.timeline.(cryptoReceivedAmount := Some(total), lastDepositCreditedAt := true,
                      cryptoConfirmedAt := row.timeline.cryptoConfirmedAt || complete),
        row.refs);
    }

    /** Operator retry: idempotent once a payout is recorded, otherwise the handoff and a second look at the row. */
    method RetryOfframpFiatPayout(off: nat, userId: string, reply: Reply) returns (r: RetryResult)
      requires Valid()
      modifies this
      ensures Valid()
      ensures View() == if off in old(offs) && old(offs)[off].info.userId == userId && CurrentPayout(old(offs)[off]).None?
                        then Handed(old(View()), off, reply) else old(View())
      ensures r.AlreadyInitiated? ==> off in offs && CurrentPayout(offs[off]) == Some(r.withdrawalId) && View() == old(View())
      ensures r.Initiated? ==> off in offs && CurrentPayout(offs[off]) == Some(r.withdrawalId) && CurrentPayout(old(offs)[off]).None?
      ensures r.FailedToInitiate? ==> off in offs && CurrentPayout(offs[off]).None?
      ensures !r.Reissued?
      ensures old(Safe()) ==> Safe()
    {
      if off !in offs { return RetryRejected("NOT_FOUND"); }
      var row := offs[off];
      if row.info.userId != userId { return RetryRejected("FORBIDDEN"); }
      var existing := CurrentPayout(row);
      if existing.Some? { return AlreadyInitiated(existing.value); }
      if row.timeline.fiatWithdrawalCompleted { return RetryRejected("PAYOUT_ALREADY_COMPLETED"); }
      if !row.status.CryptoConfirmed? { return RetryRejected("INVALID_STATUS"); }
      AdvanceOfframpIfDepositReady(off, reply);
      var after := CurrentPayout(offs[off]);
      r := if after.Some? then Initiated(after.value) else FailedToInitiate;
    }

    /** Reissue: the row must still be attached to the payout the operator saw. */
    method ReissueOfframpFiatPayout(off: nat, withdrawalId: nat, reply: Reply) returns (r: RetryResult)
      requires Valid()
      modifies this
      ensures Valid()
      ensures off !in old(offs) ==> View() == old(View()) && r == RetryRejected("NOT_FOUND")
      ensures off in old(offs) && CurrentPayout(old(offs)[off]) != Some(withdrawalId) ==>
                View() == old(View()) && r == RetryRejected("PAYOUT_MISMATCH")
      ensures off in old(offs) && CurrentPayout(old(offs)[off]) == Some(withdrawalId) ==>
                && View() == ReissuedState(old(View()), off, withdrawalId, reply)
                && (r.Reissued? <==> reply.Accepted?)
                && (r.Reissued? ==> r.previous == withdrawalId && offs[off].timeline.fiatWithdrawalId == Some(r.withdrawalId))
                && (!r.Reissued? ==> r == RetryRejected("FIAT_PAYOUT_REISSUE_FAILED"))
    {
      if off !in offs { return RetryRejected("NOT_FOUND"); }
      var row := offs[off];
      if CurrentPayout(row) != Some(withdrawalId) { return RetryRejected("PAYOUT_MISMATCH"); }
      var id := CallProvider(off, ReissueKey(withdrawalId), reply);
      if id.None? { return RetryRejected("FIAT_PAYOUT_REISSUE_FAILED"); }
      RecordReissue(off, id.value, withdrawalId);
      r := Reissued(id.value, withdrawalId);
    }

    /** The dashboard's retry button: route on the payout's live state. */
    method RetryOfframpFiatPayoutAdmin(off: nat, loads: bool, reply: Reply) returns (r: RetryResult)
      requires Valid()
      modifies this
      ensures Valid()
      ensures off in old(offs) && CurrentPayout(old(offs)[off]).Some? ==> View() == Retried(old(View()), off, loads, reply)
      ensures off in old(offs) && CurrentPayout(old(offs)[off]).None? ==> View() == Handed(old(View()), off, reply)
      ensures off !in old(offs) ==> View() == old(View())
      ensures off in old(offs) && CurrentPayout(old(offs)[off]).Some? ==>
                var id := CurrentPayout(old(offs)[off]).value;
                && AnswersRetry(r, PayoutState(old(payouts)[off], id), loads, reply)
                && (ReportsDead(old(payouts)[off], id, loads) ==>
                      ReissuedOff(old(offs)[off], offs[off], old(payouts)[off], payouts[off], id, reply))
                && (!ReportsDead(old(payouts)[off], id, loads) ==> View() == old(View()))
                && (r.Reissued? ==> r.previous == id && offs[off].timeline.fiatWithdrawalId == Some(r.withdrawalId))
      ensures old(Safe()) ==> Safe()
    {
      hide ReissuedOff, OnlyOfframp, ReissuedState, Handed, PayoutState, CurrentPayout;
      ghost var before := View();
      if off !in offs { return RetryRejected("NOT_FOUND"); }
      var current := CurrentPayout(offs[off]);
      if current.None? {
        r := RetryOfframpFiatPayout(off, offs[off].info.userId, reply);
        return;
      }
      var live := if loads then PayoutState(payouts[off], current.value) else None;
      RetryLeaves(before, off, loads, reply);
      match DecideRetry(current, live)
      case Reissue(wid) =>
        assert AfterLoad(payouts[off], current.value, loads) == Some(Rereading(wid));
        r := ReissueOfframpFiatPayout(off, wid, reply);
        RetryStaysReached(before, off, loads, reply);
      case Reject(code) =>
        assert AfterLoad(payouts[off], current.value, loads).None?;
        r := RetryRejected(code);
    }

    /** The settler's scan: each candidate either matches or gives a reason, in the order listed. */
    method CollectMatches(on: OnrampInfo, candidates: seq<nat>, now: int)
      returns (matches: seq<nat>, reasons: seq<(nat, Reason)>)
      requires forall i :: 0 <= i < |candidates| ==> candidates[i] in offs
      ensures matches == Passing(on, offs, candidates, now)
      ensures |matches| + |reasons| == |candidates|
    {
      matches, reasons := [], [];
      for i := 0 to |candidates|
        invariant matches == Passing(on, offs, candidates[..i], now)
        invariant |matches| + |reasons| == i
      {
        PassingStep(on, offs, candidates, i, now);
        var check := CheckPair(on, offs[candidates[i]], now);
        if check.Pair? {
          matches := matches + [candidates[i]];
        } else {
          reasons := reasons + [(candidates[i], check.reason)];
        }
      }
      assert candidates[..|candidates|] == candidates;
    }

    /** `claimOfframpCrypto`: funds the offramp only while its status is still settleable. */
    method ClaimOfframpCrypto(on: nat, off: nat, snap: Offramp, amount: real) returns (claimed: bool)
      requires Valid() && off in offs
      modifies this`offs, this`claims
      ensures Valid() && claimed == Settleable(old(offs)[off].status)
      ensures claimed ==>
                && claims == old(claims) + [Claim(on, off, amount, 0)]
                && offs == old(offs)[off := Offramp(old(offs)[off].info, OffStatus.CryptoConfirmed,
                                                    Timeline(Some(amount), true, true, Some(on), snap.timeline.fiatWithdrawalId,
                                                             snap.timeline.fiatWithdrawalCompleted), snap.refs)]
      ensures !claimed ==> offs == old(offs) && claims == old(claims)
    {
      claimed := Settleable(offs[off].status);
      if claimed {
        offs := offs[off := offs[off].(status := OffStatus.CryptoConfirmed, refs := snap.refs,
                                       timeline := SettledTimeline(snap.timeline, on, amount))];
        claims := claims + [Claim(on, off, amount, 0)];
      }
    }

    /** Settle the onramp's crypto into its one matching offramp, if there is exactly one. */
    method TrySettleInternally(on: nat, candidates: seq<nat>, now: int, payoutReply: Reply) returns (settled: bool)
      requires Valid() && on in ons && ons[on].status.FiatProcessed?
      requires Lists(candidates, Candidates(ons[on].info, offs))
      modifies this
      ensures Valid()
      ensures settled <==> exists off :: PaysOnly(old(ons)[on], old(offs), now, off)
      ensures !settled ==> View() == old(View())
      ensures forall off :: PaysOnly(old(ons)[on], old(offs), now, off) ==>
                View() == Handed(SettledState(old(View()), on, off, old(ons)[on].info.dest.amount.value), off, payoutReply)
    {
      var row := ons[on];
      SettlesMeans(row, offs, now);
      hide PaysOnly, CheckPair;
      if !IsFiatToFiat(Text.Trim(row.info.flow)) { return false; }
      assert forall i :: 0 <= i < |candidates| ==> candidates[i] in Candidates(row.info, offs);
      var matches, _ := CollectMatches(row.info, candidates, now);
      SoleMatchIsTheMatch(row, offs, candidates, now);
      if |matches| > 1 { return false; }
      if matches == [] { return false; }
      var off := matches[0];
      settled := SettleInto(on, off, CheckPair(row.info, offs[off], now).amount, payoutReply);
    }

    /** The writes of a settlement: the claim, the onramp's completion, the offramp's handoff. */
    method SettleInto(on: nat, off: nat, amount: real, payoutReply: Reply) returns (settled: bool)
      requires Valid() && on in ons && off in offs
      modifies this
      ensures Valid() && settled == Settleable(old(offs)[off].status)
      ensures !settled ==> View() == old(View())
      ensures settled ==> View() == Handed(SettledState(old(View()), on, off, amount), off, payoutReply)
    {
      settled := ClaimOfframpCrypto(on, off, offs[off], amount);
      if settled {
        UpdateOnramp(on, OnStatus.Completed, None);
        assert View() == SettledState(old(View()), on, off, amount);
        AdvanceOfframpIfDepositReady(off, payoutReply);
      }
    }

    /** `advanceOnrampIfFiatProcessed`: settle internally or send the crypto on-chain. */
    method AdvanceOnrampIfFiatProcessed(on: nat, candidates: seq<nat>, now: int, reply: Reply, payoutReply: Reply)
      requires Valid()
      requires on in ons ==> Lists(candidates, Candidates(ons[on].info, offs))
      modifies this
      ensures Valid() && View() == Advanced(old(View()), on, now, reply, payoutReply)
      ensures old(Safe()) ==> Safe()
    {
      ghost var before := View();
      if on !in ons { return; }
      var row := ons[on];
      SettlesMeans(row, offs, now);
      hide PaysOnly, CheckPair;
      if row.status.FiatProcessed? {
        var settled := TrySettleInternally(on, candidates, now, payoutReply);
        if settled {
          AdvanceStaysReached(before, on, now, reply, payoutReply);
          return;
        }
      }
      if !SendEligible(row) { return; }
      if !row.info.sendable { return; }
      SendOnChain(on, reply);
      AdvanceStaysReached(before, on, now, reply, payoutReply);
    }

    /** The on-chain branch: mark, call the provider under the onramp's key, record the answer. */
    method SendOnChain(on: nat, reply: Reply)
      requires Valid() && on in ons
      modifies this`ons, this`crypto, this`nextId
      ensures Valid() && View() == SentState(old(View()), on, reply)
    {
      MarkSendBegun(on);
      var id := CallCryptoProvider(on, reply);
      UpdateOnramp(on, OnStatus.CryptoPending, id);
      assert ons[on] == SentRow(old(ons)[on], crypto[on], reply);
      assert ons == old(ons)[on := SentRow(old(ons)[on], crypto[on], reply)];
    }

    method MarkSendBegun(on: nat)
      requires Valid() && on in ons
      modifies this`ons
      ensures Valid() && ons == old(ons)[on := InitiatedRow(old(ons)[on])]
    {
      var row := ons[on];
      if row.status.FiatProcessed? {
        UpdateOnramp(on, OnStatus.CryptoInitiated, row.receiptWithdrawalId);
      }
    }

    /** `executePalremitOnrampCryptoWithdrawal`: one call, keyed by the onramp's reference. */
    method CallCryptoProvider(on: nat, reply: Reply) returns (id: Option<nat>)
      requires Valid() && on in crypto
      modifies this`crypto, this`nextId
      ensures Valid() && nextId == old(nextId) + 1
      ensures crypto == old(crypto)[on := HeldCrypto(old(crypto)[on], old(nextId), reply)]
      ensures id == if reply.Accepted? then Some(crypto[on][0]) else None
    {
      var held := crypto[on];
      if !reply.Rejected? && held == [] { held := [nextId]; }
      crypto := crypto[on := held];
      nextId := nextId + 1;
      id := if reply.Accepted? then Some(held[0]) else None;
    }

    /** The sweep over rows it listed earlier: each update is guarded on the row as it is by then. */
    method ExpireStaleOfframps(rows: seq<(nat, Offramp)>, now: int) returns (count: nat)
      requires Valid() && forall i :: 0 <= i < |rows| ==> rows[i].0 in offs
      modifies this`offs
      ensures Valid() && offs == Swept(old(offs), rows, now)
      ensures count == |Due(rows, now)|
    {
      count := 0;
      for i := 0 to |rows|
        invariant offs.Keys == old(offs).Keys && offs == Swept(old(offs), rows[..i], now)
        invariant count == |Due(rows[..i], now)|
      {
        assert rows[..i + 1][..i] == rows[..i];
        var (id, seen) := rows[i];
        if RowDue(seen, now) {
          offs := offs[id := offs[id].(status := OfframpStatusAfter(offs[id], OffStatus.Expired, false))];
          count := count + 1;
        }
      }
      assert rows[..|rows|] == rows;
    }
  }

  predicate RowDue(row: Offramp, now: int) {
    row.status.AwaitingCrypto? && PastDue(row.info, now)
  }

  /** The listed rows that the sweep tries to expire. */
  function Due(rows: seq<(nat, Offramp)>, now: int): seq<nat> {
    if rows == [] then []
    else
      var n := |rows| - 1;
      Due(rows[..n], now) + if RowDue(rows[n].1, now) then [rows[n].0] else []
  }

  /** Tried are exactly the rows that were listed as waiting past their deadline. */
  lemma {:induction false} DueExactly(rows: seq<(nat, Offramp)>, now: int, off: nat)
    ensures off in Due(rows, now) <==>
              exists i :: 0 <= i < |rows| && rows[i].0 == off && rows[i].1.status == OffStatus.AwaitingCrypto && IsDue(rows[i].1.info, now)
  {
    if rows != [] {
      var n := |rows| - 1;
      DueExactly(rows[..n], now, off);
      hide IsDue;
      assert RowDue(rows[n].1, now) <==> rows[n].1.status == OffStatus.AwaitingCrypto && IsDue(rows[n].1.info, now) by {
        GuardsExactly(rows[n].1, Expire(now));
      }
      hide Due, RowDue;
      assert forall i :: 0 <= i < n ==> rows[..n][i] == rows[i];
    }
  }

  /** The rows after the sweep. */
  function Swept(offs: map<nat, Offramp>, rows: seq<(nat, Offramp)>, now: int): (r: map<nat, Offramp>)
    requires forall i :: 0 <= i < |rows| ==> rows[i].0 in offs
    ensures r.Keys == offs.Keys
  {
    if rows == [] then offs
    else
      var n := |rows| - 1;
      var before := Swept(offs, rows[..n], now);
      var id := rows[n].0;
      if RowDue(rows[n].1, now)
      then before[id := before[id].(status := OfframpStatusAfter(before[id], OffStatus.Expired, false))]
      else before
  }

  /**
   The sweep expires exactly the rows that were listed as due and hold no funds when it gets to them; it touches
   no other field and no other row. The rows it counts include those whose update the guard refused.
   */
  lemma {:induction false} SweepExpiresExactly(offs: map<nat, Offramp>, rows: seq<(nat, Offramp)>, now: int, off: nat)
    requires (forall i :: 0 <= i < |rows| ==> rows[i].0 in offs) && off in offs
    ensures Swept(offs, rows, now)[off] ==
              if off in Due(rows, now) && !OfframpFundsReceived(offs[off])
              then offs[off].(status := OffStatus.Expired) else offs[off]
  {
    if rows != [] {
      SweepExpiresExactly(offs, rows[..|rows| - 1], now, off);
    }
  }

  /** The candidates that pass the pairing check, in the order listed. */
  function Passing(on: OnrampInfo, offs: map<nat, Offramp>, candidates: seq<nat>, now: int): seq<nat>
    requires forall i :: 0 <= i < |candidates| ==> candidates[i] in offs
  {
    if candidates == [] then []
    else
      var n := |candidates| - 1;
      Passing(on, offs, candidates[..n], now) + if CheckPair(on, offs[candidates[n]], now).Pair? then [candidates[n]] else []
  }

  /** One more candidate is looked at. */
  lemma PassingStep(on: OnrampInfo, offs: map<nat, Offramp>, candidates: seq<nat>, i: nat, now: int)
    requires i < |candidates| && forall k :: 0 <= k < |candidates| ==> candidates[k] in offs
    ensures Passing(on, offs, candidates[..i + 1], now) ==
              Passing(on, offs, candidates[..i], now) + if CheckPair(on, offs[candidates[i]], now).Pair? then [candidates[i]] else []
  {
    assert candidates[..i + 1][..i] == candidates[..i];
  }

  lemma {:induction false} PassingMembers(on: OnrampInfo, offs: map<nat, Offramp>, candidates: seq<nat>, now: int)
    requires forall i :: 0 <= i < |candidates| ==> candidates[i] in offs
    requires forall i, j :: 0 <= i < j < |candidates| ==> candidates[i] != candidates[j]
    ensures var r := Passing(on, offs, candidates, now);
            (forall o :: o in r <==> o in candidates && CheckPair(on, offs[o], now).Pair?) &&
            (forall i, j :: 0 <= i < j < |r| ==> r[i] != r[j])
  {
    if candidates != [] {
      var n := |candidates| - 1;
      PassingMembers(on, offs, candidates[..n], now);
      assert candidates == candidates[..n] + [candidates[n]];
      assert candidates[n] !in candidates[..n];
    }
  }

  /** The scan finds a single match exactly when the machine does, and it is the same offramp. */
  lemma SoleMatchIsTheMatch(row: Onramp, offs: map<nat, Offramp>, candidates: seq<nat>, now: int)
    requires Lists(candidates, Candidates(row.info, offs))
    requires forall i :: 0 <= i < |candidates| ==> candidates[i] in offs
    ensures var matches := Passing(row.info, offs, candidates, now);
            SoleMatch(row, offs, now) == if |matches| == 1 then Some(matches[0]) else None
  {
    PassingMembers(row.info, offs, candidates, now);
    var matches := Passing(row.info, offs, candidates, now);
    SetOfSeq(Matches(row.info, offs, now), matches);
  }

  /** A set listed without repetition is a singleton exactly when the list has one element. */
  lemma SetOfSeq(ms: set<nat>, xs: seq<nat>)
    requires forall o :: o in ms <==> o in xs
    requires forall i, j :: 0 <= i < j < |xs| ==> xs[i] != xs[j]
    ensures |xs| == 1 ==> ms == {xs[0]}
    ensures forall o :: ms == {o} ==> |xs| == 1 && xs[0] == o
  {
    assert |xs| >= 2 ==> xs[0] in ms && xs[1] in ms && xs[0] != xs[1];
    assert xs == [] ==> ms == {};
    forall o | ms == {o} ensures |xs| == 1 && xs[0] == o {
      assert o in ms;
    }
  }
}
