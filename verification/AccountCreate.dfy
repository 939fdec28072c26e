/**
 Creating an onramp account once per request id (core/accounts/createAccount.ts): any number of calls interleave at
 their awaits over a unique column, and rows may be deleted meanwhile (core/accounts/deleteAccount.ts).
 */
module AccountCreate {
  import opened Wrappers

  /** What identifies a caller's payload; names are already sanitised (db/repositories/accountCreationPayload.ts). */
  datatype Fingerprint = Fingerprint(userId: string, email: Option<string>, firstName: Option<string>, lastName: Option<string>)

  /** `named`: the account is issued by the provider after its creation; `imports`: its holder's KYC is. */
  datatype Request = Request(requestId: string, payload: Fingerprint, named: bool, imports: bool)

  /** A row; `creator` is history. */
  datatype Account = Account(id: nat, payload: Fingerprint, creator: nat)

  datatype Outcome =
    | Created(id: nat)       // 'Account created successfully'
    | Existing(id: nat)      // 'Account already exists'
    | Conflict               // REQUEST_ID_MISMATCH
    | DocumentFailed
    | ImportFailed
    | Missing                // the insert hit the unique column but the row is gone: its error is rethrown
    | Vanished(id: nat)      // the call's own row was deleted before the provider's answer could be stored

  datatype Phase =
    | Looking                // about to look the request id up
    | Copying                // about to copy the document
    | Inserting
    | Relooking              // lost the insert, about to look up again
    | Announcing(id: nat)    // inserted, about to schedule the created event
    | Issuing(id: nat)       // about to call the provider for the new account
    | Done(outcome: Outcome)

  datatype Call = Call(request: Request, phase: Phase)

  datatype Event = CreatedEvent(id: nat) | ProvisioningStarted(id: nat)

  /** A row as it was inserted. */
  datatype Record = Record(requestId: string, account: Account)

  /** `made` and `deleted` are history: every row ever inserted, by its id, and the ids of those deleted. */
  datatype State = State(
    rows: map<string, Account>, calls: map<nat, Call>, events: seq<Event>, nextId: nat,
    made: map<nat, Record>, deleted: set<nat>)

  predicate Init(s: State) {
    s.rows == map[] && s.calls == map[] && s.events == [] && s.made == map[] && s.deleted == {}
  }

  datatype Step =
    | Begin(pid: nat, request: Request)
    | Look(pid: nat)
    | Copy(pid: nat, works: bool)
    | Insert(pid: nat)
    | Relook(pid: nat)
    | Announce(pid: nat)
    | Issue(pid: nat, works: bool)
    | Abandon(pid: nat)
    | Delete(requestId: string)

  predicate Enabled(s: State, step: Step) {
    match step
    case Begin(pid, _) => pid !in s.calls
    case Look(pid) => pid in s.calls && s.calls[pid].phase.Looking?
    case Copy(pid, _) => pid in s.calls && s.calls[pid].phase.Copying?
    case Insert(pid) => pid in s.calls && s.calls[pid].phase.Inserting?
    case Relook(pid) => pid in s.calls && s.calls[pid].phase.Relooking?
    case Announce(pid) => pid in s.calls && s.calls[pid].phase.Announcing?
    case Issue(pid, _) => pid in s.calls && s.calls[pid].phase.Issuing?
    case Abandon(pid) => pid in s.calls && !s.calls[pid].phase.Done?
    case Delete(requestId) => requestId in s.rows
  }

  function To(s: State, pid: nat, phase: Phase): State
    requires pid in s.calls
  {
    s.(calls := s.calls[pid := s.calls[pid].(phase := phase)])
  }

  /** What a lookup by request id answers: a hit counts only if the payload is the caller's own. */
  function Answer(rows: map<string, Account>, r: Request, missing: Phase): Phase {
    if r.requestId !in rows then missing
    else if rows[r.requestId].payload == r.payload then Done(Existing(rows[r.requestId].id))
    else Done(Conflict)
  }

  /** After the created event: issue a named account, import the holder's KYC, or be done. */
  function AfterAnnounce(r: Request, id: nat): Phase {
    if r.named || r.imports then Issuing(id) else Done(Created(id))
  }

  /** The call's own row is still there. */
  predicate Present(s: State, r: Request, id: nat) {
    r.requestId in s.rows && s.rows[r.requestId].id == id
  }

  /** The provider is called, and its answer stored in the row; that update throws when the row is gone. */
  function AfterIssue(s: State, r: Request, id: nat, works: bool): Phase {
    if !Present(s, r, id) then Done(Vanished(id))
    else if r.named || works then Done(Created(id))
    else Done(ImportFailed)
  }

  function Apply(s: State, step: Step): State
    requires Enabled(s, step)
  {
    match step
    case Begin(pid, r) => s.(calls := s.calls[pid := Call(r, Looking)])
    case Look(pid) => To(s, pid, Answer(s.rows, s.calls[pid].request, Copying))
    case Copy(pid, works) => To(s, pid, if works then Inserting else Done(DocumentFailed))
    case Insert(pid) =>
      var r := s.calls[pid].request;
      var row := Account(s.nextId, r.payload, pid);
      if r.requestId in s.rows then To(s, pid, Relooking)
      else To(s, pid, Announcing(s.nextId)).(
        rows := s.rows[r.requestId := row], made := s.made[s.nextId := Record(r.requestId, row)], nextId := s.nextId + 1)
    case Relook(pid) => To(s, pid, Answer(s.rows, s.calls[pid].request, Done(Missing)))
    case Announce(pid) =>
      var id := s.calls[pid].phase.id;
      To(s, pid, AfterAnnounce(s.calls[pid].request, id)).(events := s.events + [CreatedEvent(id)])
    case Issue(pid, works) =>
      var r, id := s.calls[pid].request, s.calls[pid].phase.id;
      To(s, pid, AfterIssue(s, r, id, works)).(events := s.events + [ProvisioningStarted(id)])
    case Abandon(pid) => s.(calls := s.calls - {pid})
    case Delete(requestId) => s.(rows := s.rows - {requestId}, deleted := s.deleted + {s.rows[requestId].id})
  }

  predicate Legal(s: State, steps: seq<Step>)
    decreases |steps|
  {
    steps == [] || (Enabled(s, steps[0]) && Legal(Apply(s, steps[0]), steps[1..]))
  }

  function Exec(s: State, steps: seq<Step>): State
    requires Legal(s, steps)
    decreases |steps|
  {
    if steps == [] then s else Exec(Apply(s, steps[0]), steps[1..])
  }

  // ---------- the invariant ----------

  /** The call made the row with this id. */
  predicate Own(made: map<nat, Record>, pid: nat, r: Request, id: nat) {
    id in made && made[id] == Record(r.requestId, Account(id, r.payload, pid))
  }

  /** The row made with this id is for the request id, with the caller's payload. */
  predicate MadeFor(made: map<nat, Record>, r: Request, id: nat) {
    id in made && made[id].requestId == r.requestId && made[id].account.payload == r.payload
  }

  ghost predicate Deleted(made: map<nat, Record>, deleted: set<nat>, requestId: string) {
    exists id :: id in deleted && id in made && made[id].requestId == requestId
  }

  ghost predicate OtherPayload(made: map<nat, Record>, r: Request) {
    exists id :: id in made && made[id].requestId == r.requestId && made[id].account.payload != r.payload
  }

  ghost predicate CallOk(s: State, pid: nat, c: Call) {
    match c.phase
    case Relooking => c.request.requestId in s.rows || Deleted(s.made, s.deleted, c.request.requestId)
    case Announcing(id) => Own(s.made, pid, c.request, id) && CreatedEvent(id) !in s.events && ProvisioningStarted(id) !in s.events
    case Issuing(id) => Own(s.made, pid, c.request, id) && ProvisioningStarted(id) !in s.events
    case Done(Created(id)) => MadeFor(s.made, c.request, id)
    case Done(Existing(id)) => MadeFor(s.made, c.request, id)
    case Done(Conflict) => OtherPayload(s.made, c.request)
    case Done(Missing) => Deleted(s.made, s.deleted, c.request.requestId)
    case Done(Vanished(id)) => Own(s.made, pid, c.request, id) && id in s.deleted
    case _ => true
  }

  predicate NoRepeats(events: seq<Event>) {
    forall i, j :: 0 <= i < j < |events| ==> events[i] != events[j]
  }

  /** The rows are exactly the made ones that have not been deleted. */
  predicate RowsOk(s: State) {
    && (forall k :: k in s.rows ==> s.rows[k].id in s.made && s.made[s.rows[k].id] == Record(k, s.rows[k]) && s.rows[k].id !in s.deleted)
    && (forall id :: id in s.made && id !in s.deleted ==>
          s.made[id].requestId in s.rows && s.rows[s.made[id].requestId] == s.made[id].account)
    && (forall id :: id in s.made ==> s.made[id].account.id == id < s.nextId)
    && s.deleted <= s.made.Keys
  }

  ghost predicate Inv(s: State) {
    && RowsOk(s)
    && (forall pid :: pid in s.calls ==> CallOk(s, pid, s.calls[pid]))
    && (forall i :: 0 <= i < |s.events| ==> s.events[i].id < s.nextId)
    && NoRepeats(s.events)
  }

  /** New rows, deletes and events of another account leave a call as it is. */
  lemma CallStays(s: State, s': State, pid: nat)
    requires pid in s.calls && CallOk(s, pid, s.calls[pid])
    requires forall id :: id in s.made ==> id in s'.made && s'.made[id] == s.made[id]
    requires s.deleted <= s'.deleted
    requires forall k :: k in s.rows ==> k in s'.rows || Deleted(s'.made, s'.deleted, k)
    requires var c := s.calls[pid];
             (c.phase.Announcing? || c.phase.Issuing?) ==>
               (CreatedEvent(c.phase.id) in s'.events ==> CreatedEvent(c.phase.id) in s.events) &&
               (ProvisioningStarted(c.phase.id) in s'.events ==> ProvisioningStarted(c.phase.id) in s.events)
    ensures CallOk(s', pid, s.calls[pid])
  {
    var r := s.calls[pid].request;
    if Deleted(s.made, s.deleted, r.requestId) {
      var id :| id in s.deleted && id in s.made && s.made[id].requestId == r.requestId;
      assert id in s'.deleted && id in s'.made && s'.made[id].requestId == r.requestId;
    }
    if OtherPayload(s.made, r) {
      var id :| id in s.made && s.made[id].requestId == r.requestId && s.made[id].account.payload != r.payload;
      assert id in s'.made && s'.made[id] == s.made[id];
    }
  }

  /** Two calls that each made a row made different ones. */
  lemma OwnersDiffer(s: State, p: nat, q: nat)
    requires Inv(s) && p in s.calls && q in s.calls && p != q
    requires (s.calls[p].phase.Announcing? || s.calls[p].phase.Issuing?) && (s.calls[q].phase.Announcing? || s.calls[q].phase.Issuing?)
    ensures s.calls[p].phase.id != s.calls[q].phase.id
  {
    assert CallOk(s, p, s.calls[p]) && CallOk(s, q, s.calls[q]);
  }

  lemma InsertInv(s: State, pid: nat)
    requires Inv(s) && Enabled(s, Insert(pid))
    ensures Inv(Apply(s, Insert(pid)))
  {
    var s' := Apply(s, Insert(pid));
    assert CreatedEvent(s.nextId) !in s.events && ProvisioningStarted(s.nextId) !in s.events;
    forall q | q in s'.calls ensures CallOk(s', q, s'.calls[q]) {
      if q != pid {
        CallStays(s, s', q);
      }
    }
  }

  /** A step that appends the event of the call's own account. */
  lemma EventInv(s: State, step: Step, pid: nat, e: Event)
    requires Inv(s) && Enabled(s, step) && (step == Announce(pid) || (step.Issue? && step.pid == pid))
    requires e == if step.Announce? then CreatedEvent(s.calls[pid].phase.id) else ProvisioningStarted(s.calls[pid].phase.id)
    ensures Inv(Apply(s, step))
  {
    var s' := Apply(s, step);
    assert CallOk(s, pid, s.calls[pid]);
    assert s'.events == s.events + [e] && s'.rows == s.rows && s'.made == s.made && s'.deleted == s.deleted;
    assert e !in s.events;
    forall q | q in s'.calls ensures CallOk(s', q, s'.calls[q]) {
      if q != pid {
        if s.calls[q].phase.Announcing? || s.calls[q].phase.Issuing? { OwnersDiffer(s, pid, q); }
        CallStays(s, s', q);
      }
    }
  }

  lemma DeleteInv(s: State, requestId: string)
    requires Inv(s) && Enabled(s, Delete(requestId))
    ensures Inv(Apply(s, Delete(requestId)))
  {
    var s' := Apply(s, Delete(requestId));
    var id := s.rows[requestId].id;
    assert id in s'.deleted && id in s'.made && s'.made[id].requestId == requestId;
    forall q | q in s'.calls ensures CallOk(s', q, s'.calls[q]) {
      CallStays(s, s', q);
    }
  }

  /** A lookup that meets a row answers from it; the second one may meet none. */
  lemma LookInv(s: State, step: Step)
    requires Inv(s) && Enabled(s, step) && (step.Look? || step.Relook?)
    ensures Inv(Apply(s, step))
  {
    var s' := Apply(s, step);
    var r := s.calls[step.pid].request;
    assert CallOk(s, step.pid, s.calls[step.pid]);
    if r.requestId in s.rows {
      var id := s.rows[r.requestId].id;
      assert s.made[id] == Record(r.requestId, s.rows[r.requestId]);
    }
    forall q | q in s'.calls ensures CallOk(s', q, s'.calls[q]) {
      if q != step.pid { CallStays(s, s', q); }
    }
  }

  lemma OtherInv(s: State, step: Step)
    requires Inv(s) && Enabled(s, step) && (step.Begin? || step.Copy? || step.Abandon?)
    ensures Inv(Apply(s, step))
  {
    var s' := Apply(s, step);
    forall q | q in s'.calls ensures CallOk(s', q, s'.calls[q]) {
      if q in s.calls && s'.calls[q] == s.calls[q] { CallStays(s, s', q); }
    }
  }

  lemma StepInv(s: State, step: Step)
    requires Inv(s) && Enabled(s, step)
    ensures Inv(Apply(s, step))
  {
    match step
    case Insert(pid) => InsertInv(s, pid);
    case Announce(pid) => EventInv(s, step, pid, CreatedEvent(s.calls[pid].phase.id));
    case Issue(pid, _) => EventInv(s, step, pid, ProvisioningStarted(s.calls[pid].phase.id));
    case Delete(requestId) => DeleteInv(s, requestId);
    case Look(_) => LookInv(s, step);
    case Relook(_) => LookInv(s, step);
    case Begin(_, _) => OtherInv(s, step);
    case Copy(_, _) => OtherInv(s, step);
    case Abandon(_) => OtherInv(s, step);
  }

  lemma {:induction false} RunInv(s: State, steps: seq<Step>)
    requires Inv(s) && Legal(s, steps)
    ensures Inv(Exec(s, steps))
    decreases |steps|
  {
    if steps != [] {
      StepInv(s, steps[0]);
      RunInv(Apply(s, steps[0]), steps[1..]);
    }
  }

  // ---------- the main results ----------

  /** The id a successful call returns. */
  predicate Succeeded(c: Call) {
    c.phase.Done? && (c.phase.outcome.Created? || c.phase.outcome.Existing?)
  }

  /**
   In every interleaving, deletes included: a call that succeeds returns the id of a row made for its request id with its
   own payload, and that is the row of the request id as long as it is not deleted. A call conflicts only with a row that
   carried another payload, and finds nothing only after a delete. For each account the created event is scheduled and
   the provider called at most once.
   */
  lemma CreatedOnce(s: State, steps: seq<Step>)
    requires Init(s) && Legal(s, steps)
    ensures var e := Exec(s, steps);
            && (forall pid :: pid in e.calls && Succeeded(e.calls[pid]) ==>
                  var r, id := e.calls[pid].request, e.calls[pid].phase.outcome.id;
                  MadeFor(e.made, r, id) && (Present(e, r, id) <==> id !in e.deleted))
            && (forall pid :: pid in e.calls && e.calls[pid].phase.Done? ==>
                  var r, outcome := e.calls[pid].request, e.calls[pid].phase.outcome;
                  (outcome.Conflict? ==> OtherPayload(e.made, r)) && (outcome.Missing? ==> Deleted(e.made, e.deleted, r.requestId)))
            && NoRepeats(e.events)
  {
    RunInv(s, steps);
    var e := Exec(s, steps);
    forall pid | pid in e.calls ensures CallOk(e, pid, e.calls[pid]) {}
  }

  /** So two successful calls with one request id return the same id, unless one of the two rows was deleted. */
  lemma SameIdUnlessDeleted(s: State, steps: seq<Step>, p: nat, q: nat)
    requires Init(s) && Legal(s, steps)
    requires p in Exec(s, steps).calls && q in Exec(s, steps).calls
    requires Succeeded(Exec(s, steps).calls[p]) && Succeeded(Exec(s, steps).calls[q])
    requires Exec(s, steps).calls[p].request.requestId == Exec(s, steps).calls[q].request.requestId
    ensures var e := Exec(s, steps);
            var i, j := e.calls[p].phase.outcome.id, e.calls[q].phase.outcome.id;
            i in e.deleted || j in e.deleted || (i == j && e.calls[p].request.payload == e.calls[q].request.payload)
  {
    CreatedOnce(s, steps);
  }

  /** What is made stays on record, and what is deleted stays deleted. */
  lemma {:induction false} HistoryGrows(s: State, steps: seq<Step>)
    requires Inv(s) && Legal(s, steps)
    ensures var e := Exec(s, steps);
            s.deleted <= e.deleted && forall id :: id in s.made ==> id in e.made && e.made[id] == s.made[id]
    decreases |steps|
  {
    if steps != [] {
      StepInv(s, steps[0]);
      HistoryGrows(Apply(s, steps[0]), steps[1..]);
    }
  }

  /** A row stays the row of its request id exactly until it is deleted. */
  lemma {:induction false} RowStaysUntilDeleted(s: State, steps: seq<Step>, requestId: string)
    requires Inv(s) && Legal(s, steps) && requestId in s.rows
    ensures var e := Exec(s, steps);
            (requestId in e.rows && e.rows[requestId] == s.rows[requestId]) <==> Delete(requestId) !in steps
    decreases |steps|
  {
    if steps != [] {
      var s1 := Apply(s, steps[0]);
      StepInv(s, steps[0]);
      assert steps == [steps[0]] + steps[1..];
      if steps[0] == Delete(requestId) {
        RunInv(s1, steps[1..]);
        HistoryGrows(s1, steps[1..]);
        assert s.rows[requestId].id in Exec(s, steps).deleted;
      } else {
        assert requestId in s1.rows && s1.rows[requestId] == s.rows[requestId];
        RowStaysUntilDeleted(s1, steps[1..], requestId);
      }
    }
  }

  predicate InsertsFor(s: State, step: Step, requestId: string)
    requires Enabled(s, step)
  {
    step.Insert? && s.calls[step.pid].request.requestId == requestId
  }

  ghost predicate NoInsert(s: State, steps: seq<Step>, requestId: string)
    requires Legal(s, steps)
    decreases |steps|
  {
    steps == [] || (!InsertsFor(s, steps[0], requestId) && NoInsert(Apply(s, steps[0]), steps[1..], requestId))
  }

  /** The row is deleted, and nothing is inserted for its request id after that. */
  ghost predicate EndsDeleted(s: State, steps: seq<Step>, requestId: string)
    requires Legal(s, steps)
    decreases |steps|
  {
    steps != [] &&
    ((steps[0] == Delete(requestId) && NoInsert(Apply(s, steps[0]), steps[1..], requestId)) ||
     EndsDeleted(Apply(s, steps[0]), steps[1..], requestId))
  }

  lemma {:induction false} GoneExactly(s: State, steps: seq<Step>, requestId: string)
    requires Legal(s, steps)
    ensures requestId !in Exec(s, steps).rows <==>
              EndsDeleted(s, steps, requestId) || (requestId !in s.rows && NoInsert(s, steps, requestId))
    decreases |steps|
  {
    if steps != [] { GoneExactly(Apply(s, steps[0]), steps[1..], requestId); }
  }

  lemma {:induction false} EndsDeletedHasDelete(s: State, steps: seq<Step>, requestId: string)
    requires Legal(s, steps) && EndsDeleted(s, steps, requestId)
    ensures Delete(requestId) in steps
    decreases |steps|
  {
    if steps[0] != Delete(requestId) {
      EndsDeletedHasDelete(Apply(s, steps[0]), steps[1..], requestId);
      assert steps[1..][0..] == steps[1..] && forall x :: x in steps[1..] ==> x in steps;
    }
  }

  /**
   A call that loses the insert ends without a row exactly when, between its insert and its second lookup, the row it lost
   to is deleted and no other call makes one.
   */
  lemma MissingExactly(s: State, pid: nat, between: seq<Step>)
    requires Inv(s) && Enabled(s, Insert(pid)) && s.calls[pid].request.requestId in s.rows
    requires var s1 := Apply(s, Insert(pid));
             Legal(s1, between) && pid in Exec(s1, between).calls && Exec(s1, between).calls[pid] == s1.calls[pid]
    ensures var s1 := Apply(s, Insert(pid));
            var e := Exec(s1, between);
            var requestId := s.calls[pid].request.requestId;
            && Enabled(e, Relook(pid))
            && (Apply(e, Relook(pid)).calls[pid].phase == Done(Missing) <==> EndsDeleted(s1, between, requestId))
            && (EndsDeleted(s1, between, requestId) ==> Delete(requestId) in between)
  {
    var s1 := Apply(s, Insert(pid));
    var requestId := s.calls[pid].request.requestId;
    GoneExactly(s1, between, requestId);
    if EndsDeleted(s1, between, requestId) { EndsDeletedHasDelete(s1, between, requestId); }
  }

  /**
   A payload that differs from the row's always gets the conflict, at whichever of the two lookups it meets the row; the
   same payload gets the row's id there.
   */
  lemma LookupDecides(s: State, step: Step)
    requires Inv(s) && Enabled(s, step) && (step.Look? || step.Relook?)
    requires s.calls[step.pid].request.requestId in s.rows
    ensures var r := s.calls[step.pid].request;
            Apply(s, step).calls[step.pid].phase ==
              Done(if s.rows[r.requestId].payload == r.payload then Existing(s.rows[r.requestId].id) else Conflict)
  {
  }

  /** A call can make a row of its own only while there is none: of two calls at the insert, the second looks up again. */
  lemma SecondInsertLooksUp(s: State, p: nat, q: nat)
    requires Inv(s) && Enabled(s, Insert(p)) && Enabled(s, Insert(q)) && p != q
    requires s.calls[p].request.requestId == s.calls[q].request.requestId
    ensures var s1 := Apply(s, Insert(p));
            Enabled(s1, Insert(q)) &&
            var s2 := Apply(s1, Insert(q));
            s2.rows == s1.rows && s2.calls[q].phase.Relooking? && Enabled(s2, Relook(q)) &&
            Apply(s2, Relook(q)).calls[q].phase ==
              Done(if s1.rows[s.calls[q].request.requestId].payload == s.calls[q].request.payload
                   then Existing(s1.rows[s.calls[q].request.requestId].id) else Conflict)
  {
    InsertInv(s, p);
  }

  /** Only what comes after the insert can be lost: a failed KYC import leaves a row, which a retry then reports as existing. */
  lemma FailedImportLeavesTheRow(s: State, pid: nat, retry: nat)
    requires Inv(s) && Enabled(s, Issue(pid, false)) && !s.calls[pid].request.named && retry !in s.calls
    requires s.calls[pid].phase.id !in s.deleted
    ensures var s1 := Apply(s, Issue(pid, false));
            var r := s.calls[pid].request;
            s1.calls[pid].phase == Done(ImportFailed) &&
            var s2 := Apply(s1, Begin(retry, r));
            Enabled(s2, Look(retry)) && Apply(s2, Look(retry)).calls[retry].phase == Done(Existing(s.calls[pid].phase.id))
  {
    assert CallOk(s, pid, s.calls[pid]);
  }

  // ---------- what deletes do to it ----------

  lemma RunCons(s: State, step: Step, rest: seq<Step>)
    requires Enabled(s, step) && Legal(Apply(s, step), rest)
    ensures Legal(s, [step] + rest) && Exec(s, [step] + rest) == Exec(Apply(s, step), rest)
  {
    assert ([step] + rest)[1..] == rest;
  }

  function ToInsert(pid: nat, r: Request, rest: seq<Step>): seq<Step> {
    [Begin(pid, r)] + ([Look(pid)] + ([Copy(pid, true)] + rest))
  }

  lemma ReachesInsert(s: State, pid: nat, r: Request, rest: seq<Step>)
    requires pid !in s.calls && r.requestId !in s.rows
    requires Legal(s.(calls := s.calls[pid := Call(r, Inserting)]), rest)
    ensures Legal(s, ToInsert(pid, r, rest))
    ensures Exec(s, ToInsert(pid, r, rest)) == Exec(s.(calls := s.calls[pid := Call(r, Inserting)]), rest)
  {
    var s1 := Apply(s, Begin(pid, r));
    var s2 := Apply(s1, Look(pid));
    assert Apply(s2, Copy(pid, true)).calls == s.calls[pid := Call(r, Inserting)];
    assert Apply(s2, Copy(pid, true)) == s.(calls := s.calls[pid := Call(r, Inserting)]);
    RunCons(s2, Copy(pid, true), rest);
    RunCons(s1, Look(pid), [Copy(pid, true)] + rest);
    RunCons(s, Begin(pid, r), [Look(pid)] + ([Copy(pid, true)] + rest));
  }

  /** Two calls for one request, both about to insert. */
  function BothInserting(s: State, r: Request): State {
    s.(calls := map[0 := Call(r, Inserting), 1 := Call(r, Inserting)])
  }

  lemma BothReachInsert(s: State, r: Request, rest: seq<Step>)
    requires Init(s) && Legal(BothInserting(s, r), rest)
    ensures Legal(s, ToInsert(0, r, ToInsert(1, r, rest)))
    ensures Exec(s, ToInsert(0, r, ToInsert(1, r, rest))) == Exec(BothInserting(s, r), rest)
  {
    var s1 := s.(calls := map[0 := Call(r, Inserting)]);
    assert s1.calls[1 := Call(r, Inserting)] == BothInserting(s, r).calls;
    ReachesInsert(s1, 1, r, rest);
    assert s.calls[0 := Call(r, Inserting)] == s1.calls;
    ReachesInsert(s, 0, r, ToInsert(1, r, rest));
  }

  function MissingRun(r: Request): seq<Step> {
    [Insert(0)] + ([Insert(1)] + ([Delete(r.requestId)] + ([Relook(1)] + [])))
  }

  lemma LoserFindsNothing(s: State, r: Request)
    requires s.calls == map[0 := Call(r, Inserting), 1 := Call(r, Inserting)] && r.requestId !in s.rows
    ensures Legal(s, MissingRun(r))
    ensures var e := Exec(s, MissingRun(r));
            1 in e.calls && e.calls[1].phase == Done(Missing)
  {
    var s1 := Apply(s, Insert(0));
    var s2 := Apply(s1, Insert(1));
    var s3 := Apply(s2, Delete(r.requestId));
    RunCons(s3, Relook(1), []);
    RunCons(s2, Delete(r.requestId), [Relook(1)] + []);
    RunCons(s1, Insert(1), [Delete(r.requestId)] + ([Relook(1)] + []));
    RunCons(s, Insert(0), [Insert(1)] + ([Delete(r.requestId)] + ([Relook(1)] + [])));
  }

  /** For every request: of two calls, the one that loses the insert can find nothing and fail. */
  lemma MissingHappens(s: State, r: Request)
    requires Init(s)
    ensures var steps := ToInsert(0, r, ToInsert(1, r, MissingRun(r)));
            Legal(s, steps) && 1 in Exec(s, steps).calls && Exec(s, steps).calls[1].phase == Done(Missing)
  {
    LoserFindsNothing(BothInserting(s, r), r);
    BothReachInsert(s, r, MissingRun(r));
  }

  function RemadeRun(r: Request): seq<Step> {
    [Insert(0)] + ([Announce(0)] + ([Delete(r.requestId)] + ([Insert(1)] + ([Announce(1)] + []))))
  }

  lemma AnotherInsert(s: State, r: Request)
    requires 1 in s.calls && s.calls[1] == Call(r, Inserting) && r.requestId !in s.rows && !r.named && !r.imports
    ensures Legal(s, [Insert(1)] + ([Announce(1)] + []))
    ensures var e := Exec(s, [Insert(1)] + ([Announce(1)] + []));
            && e.calls == s.calls[1 := Call(r, Done(Created(s.nextId)))]
            && r.requestId in e.rows && e.rows[r.requestId].id == s.nextId
  {
    var s1 := Apply(s, Insert(1));
    assert Apply(s1, Announce(1)).calls == s.calls[1 := Call(r, Done(Created(s.nextId)))];
    RunCons(s1, Announce(1), []);
    RunCons(s, Insert(1), [Announce(1)] + []);
  }

  lemma SecondMakesAnother(s: State, r: Request)
    requires s.calls == map[0 := Call(r, Inserting), 1 := Call(r, Inserting)] && r.requestId !in s.rows && !r.named && !r.imports
    ensures Legal(s, RemadeRun(r))
    ensures var e := Exec(s, RemadeRun(r));
            && 0 in e.calls && 1 in e.calls && e.calls[0].phase == Done(Created(s.nextId)) && e.calls[1].phase == Done(Created(s.nextId + 1))
            && r.requestId in e.rows && e.rows[r.requestId].id == s.nextId + 1
  {
    var s1 := Apply(s, Insert(0));
    var s2 := Apply(s1, Announce(0));
    var s3 := Apply(s2, Delete(r.requestId));
    AnotherInsert(s3, r);
    RunCons(s2, Delete(r.requestId), [Insert(1)] + ([Announce(1)] + []));
    RunCons(s1, Announce(0), [Delete(r.requestId)] + ([Insert(1)] + ([Announce(1)] + [])));
    RunCons(s, Insert(0), [Announce(0)] + ([Delete(r.requestId)] + ([Insert(1)] + ([Announce(1)] + []))));
  }

  /** And two calls with one request id and one payload can both create an account. */
  lemma RemadeHappens(s: State, r: Request)
    requires Init(s) && !r.named && !r.imports
    ensures var steps := ToInsert(0, r, ToInsert(1, r, RemadeRun(r)));
            Legal(s, steps) && var e := Exec(s, steps);
            && 0 in e.calls && 1 in e.calls && Succeeded(e.calls[0]) && Succeeded(e.calls[1])
            && e.calls[0].phase.outcome.id != e.calls[1].phase.outcome.id
  {
    SecondMakesAnother(BothInserting(s, r), r);
    BothReachInsert(s, r, RemadeRun(r));
  }

  // ---------- one call with nothing in between ----------

  /** From the insert on, when there is no row. */
  function InsertSteps(pid: nat, r: Request, issued: bool): seq<Step> {
    [Insert(pid)] + ([Announce(pid)] + (if r.named || r.imports then [Issue(pid, issued)] + [] else []))
  }

  function CallSteps(s: State, pid: nat, r: Request, copied: bool, issued: bool): seq<Step> {
    if r.requestId in s.rows then [Begin(pid, r)] + ([Look(pid)] + [])
    else if !copied then [Begin(pid, r)] + ([Look(pid)] + ([Copy(pid, false)] + []))
    else ToInsert(pid, r, InsertSteps(pid, r, issued))
  }

  /** An account that is neither named nor imported needs no provider, and a named one is kept even when its issue fails. */
  function Kept(r: Request, id: nat, issued: bool): Outcome {
    if r.imports && !r.named && !issued then ImportFailed else Created(id)
  }

  /**
   What one call leaves: the row that was there decides; else its own row, one created event, and one call to the provider
   if it is needed.
   */
  predicate CallLeaves(s: State, e: State, pid: nat, r: Request, copied: bool, issued: bool) {
    if r.requestId in s.rows then
      var row := s.rows[r.requestId];
      e == s.(calls := s.calls[pid := Call(r, Done(if row.payload == r.payload then Existing(row.id) else Conflict))])
    else if !copied then e == s.(calls := s.calls[pid := Call(r, Done(DocumentFailed))])
    else
      var row := Account(s.nextId, r.payload, pid);
      e == State(s.rows[r.requestId := row], s.calls[pid := Call(r, Done(Kept(r, s.nextId, issued)))],
                 s.events + ([CreatedEvent(s.nextId)] + if r.named || r.imports then [ProvisioningStarted(s.nextId)] else []),
                 s.nextId + 1, s.made[s.nextId := Record(r.requestId, row)], s.deleted)
  }

  lemma InsertRuns(s: State, pid: nat, r: Request, issued: bool)
    requires pid in s.calls && s.calls[pid] == Call(r, Inserting) && r.requestId !in s.rows
    ensures Legal(s, InsertSteps(pid, r, issued))
    ensures CallLeaves(s, Exec(s, InsertSteps(pid, r, issued)), pid, r, true, issued)
  {
    var s1 := Apply(s, Insert(pid));
    var s2 := Apply(s1, Announce(pid));
    if r.named || r.imports {
      var e := Apply(s2, Issue(pid, issued));
      assert e.calls == s.calls[pid := Call(r, Done(Kept(r, s.nextId, issued)))];
      assert e.events == s.events + ([CreatedEvent(s.nextId)] + [ProvisioningStarted(s.nextId)]);
      RunCons(s2, Issue(pid, issued), []);
      RunCons(s1, Announce(pid), [Issue(pid, issued)] + []);
      RunCons(s, Insert(pid), [Announce(pid)] + ([Issue(pid, issued)] + []));
    } else {
      assert s2.calls == s.calls[pid := Call(r, Done(Kept(r, s.nextId, issued)))];
      RunCons(s1, Announce(pid), []);
      RunCons(s, Insert(pid), [Announce(pid)] + []);
    }
  }

  /** A whole call is a run of the machine, and leaves that. */
  lemma CallRuns(s: State, pid: nat, r: Request, copied: bool, issued: bool)
    requires pid !in s.calls
    ensures Legal(s, CallSteps(s, pid, r, copied, issued))
    ensures CallLeaves(s, Exec(s, CallSteps(s, pid, r, copied, issued)), pid, r, copied, issued)
  {
    var s1 := Apply(s, Begin(pid, r));
    if r.requestId in s.rows {
      var e := Apply(s1, Look(pid));
      assert e.calls == s.calls[pid := e.calls[pid]];
      RunCons(s1, Look(pid), []);
      RunCons(s, Begin(pid, r), [Look(pid)] + []);
    } else if !copied {
      var s2 := Apply(s1, Look(pid));
      var e := Apply(s2, Copy(pid, false));
      assert e.calls == s.calls[pid := Call(r, Done(DocumentFailed))];
      RunCons(s2, Copy(pid, false), []);
      RunCons(s1, Look(pid), [Copy(pid, false)] + []);
      RunCons(s, Begin(pid, r), [Look(pid)] + ([Copy(pid, false)] + []));
    } else {
      var inserting := s.(calls := s.calls[pid := Call(r, Inserting)]);
      InsertRuns(inserting, pid, r, issued);
      ReachesInsert(s, pid, r, InsertSteps(pid, r, issued));
      var e := Exec(inserting, InsertSteps(pid, r, issued));
      assert inserting.calls[pid := e.calls[pid]] == s.calls[pid := e.calls[pid]];
    }
  }

  /** The provider's answer meets the call's own row, or fails with it gone. */
  lemma IssueEnds(s: State, pid: nat, works: bool)
    requires Enabled(s, Issue(pid, works))
    ensures var c, e := s.calls[pid], Apply(s, Issue(pid, works));
            && e.events == s.events + [ProvisioningStarted(c.phase.id)]
            && (e.calls[pid].phase == Done(Vanished(c.phase.id)) <==>
                  c.request.requestId !in s.rows || s.rows[c.request.requestId].id != c.phase.id)
            && (e.calls[pid].phase != Done(Vanished(c.phase.id)) ==>
                  e.calls[pid].phase == Done(if c.request.named || works then Created(c.phase.id) else ImportFailed))
  {
  }

  /** A call can be given up at any of its awaits and leaves the rest as it is. */
  lemma AbandonLeaves(s: State, pid: nat)
    ensures Enabled(s, Abandon(pid)) <==> pid in s.calls && (forall outcome :: s.calls[pid].phase != Done(outcome))
    ensures Enabled(s, Abandon(pid)) ==> Apply(s, Abandon(pid)) == s.(calls := s.calls - {pid})
  {
    if pid in s.calls && s.calls[pid].phase.Done? { assert s.calls[pid].phase == Done(s.calls[pid].phase.outcome); }
  }

  // ---------- the call as the source runs it ----------

  class Accounts {
    var rows: map<string, Account>
    var events: seq<Event>
    var nextId: nat

    /** The insert over the unique column. */
    method InsertRow(pid: nat, r: Request) returns (id: Option<nat>)
      modifies this`rows, this`nextId
      ensures id == if r.requestId in old(rows) then None else Some(old(nextId))
      ensures rows == if id.Some? then old(rows)[r.requestId := Account(id.value, r.payload, pid)] else old(rows)
      ensures nextId == if id.Some? then old(nextId) + 1 else old(nextId)
    {
      if r.requestId in rows { return None; }
      id := Some(nextId);
      rows := rows[r.requestId := Account(nextId, r.payload, pid)];
      nextId := nextId + 1;
    }

    /**
     `createAccount` for an onramp. `copied` and `issued` say whether the document copy and the provider's call work;
     `rival` is a request whose row is inserted during the copy, and `removed` says that the row a lost insert met is
     deleted before the second lookup.
     */
    method CreateOnrampAccount(pid: nat, r: Request, copied: bool, rival: Option<Request>, removed: bool, issued: bool)
      returns (outcome: Outcome)
      modifies this
      ensures outcome.Created? || outcome.Existing? ==>
                r.requestId in rows && rows[r.requestId].id == outcome.id && rows[r.requestId].payload == r.payload
      ensures outcome.Conflict? <==>
                (if r.requestId in old(rows) then old(rows)[r.requestId].payload != r.payload
                 else copied && !removed && rival.Some? && rival.value.requestId == r.requestId && rival.value.payload != r.payload)
      ensures outcome.Missing? <==>
                r.requestId !in old(rows) && copied && removed && rival.Some? && rival.value.requestId == r.requestId
      ensures !outcome.Vanished?
      ensures outcome.Created? || outcome.ImportFailed? <==>
                (r.requestId !in old(rows) && copied && (rival.None? || rival.value.requestId != r.requestId))
      ensures outcome.Created? || outcome.ImportFailed? ==> r.requestId in rows && rows[r.requestId].creator == pid
      ensures outcome.Created? || outcome.ImportFailed? ==>
                events == old(events) + [CreatedEvent(rows[r.requestId].id)] +
                          (if r.named || r.imports then [ProvisioningStarted(rows[r.requestId].id)] else [])
      ensures !outcome.Created? && !outcome.ImportFailed? ==> events == old(events)
      ensures forall k :: k in old(rows) ==> k in rows && rows[k] == old(rows)[k]
      ensures outcome.Missing? ==> r.requestId !in rows
    {
      if r.requestId in rows {
        if rows[r.requestId].payload != r.payload { return Conflict; }
        return Existing(rows[r.requestId].id);
      }
      if rival.Some? {
        var _ := InsertRow(pid + 1, rival.value);
      }
      if !copied { return DocumentFailed; }
      var id := InsertRow(pid, r);
      if id.None? {
        if removed { rows := rows - {r.requestId}; }
        if r.requestId !in rows { return Missing; }
        if rows[r.requestId].payload != r.payload { return Conflict; }
        return Existing(rows[r.requestId].id);
      }
      events := events + [CreatedEvent(id.value)];
      if r.named || r.imports {
        events := events + [ProvisioningStarted(id.value)];
        if !r.named && !issued { return ImportFailed; }
      }
      return Created(id.value);
    }
  }
}
