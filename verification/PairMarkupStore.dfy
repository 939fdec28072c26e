/**
 The in-memory markup rules and their reloads (core/quotes/pairMarkupStore.ts), and the dashboard writes that reload
 them (core/admin/pairMarkup.ts). A reload takes a ticket, reads the table some time later and finishes later still;
 reloads and writes interleave freely.
 */
module PairMarkupStore {
  import opened Wrappers
  import opened PairMarkup

  // ---------- the module's variables ----------

  datatype Memory = Memory(rules: seq<Rule>, fromDatabase: bool, loadsStarted: nat, newestApplied: nat)

  function Begun(m: Memory): Memory {
    m.(loadsStarted := m.loadsStarted + 1)
  }

  /** The end of a reload: it fails, or it comes after a newer one, or its rows are taken. */
  function Finished(m: Memory, ticket: nat, rows: Option<seq<Setting>>): Memory {
    if rows.None? || ticket < m.newestApplied then m
    else Memory(RulesOf(rows.value), true, m.loadsStarted, ticket)
  }

  class Store {
    var rules: seq<Rule>
    var fromDatabase: bool
    var loadsStarted: nat
    var newestApplied: nat

    constructor (config: seq<Rule>)
      ensures View() == Memory(config, false, 0, 0)
      ensures forall rows: seq<Setting> :: Init(State(View(), [rows], [], map[], 0, []))
    {
      rules, fromDatabase, loadsStarted, newestApplied := config, false, 0, 0;
    }

    function View(): Memory
      reads this
    {
      Memory(rules, fromDatabase, loadsStarted, newestApplied)
    }

    method SetRulesFromSettings(rows: seq<Setting>)
      modifies this`rules, this`fromDatabase
      ensures rules == RulesOf(rows) && fromDatabase
    {
      rules := RulesFromSettings(rows);
      fromDatabase := true;
    }

    /** Up to the `await` of the load. */
    method BeginReload() returns (ticket: nat)
      modifies this
      ensures View() == Begun(old(View())) && ticket == loadsStarted
    {
      loadsStarted := loadsStarted + 1;
      ticket := loadsStarted;
    }

    /** From the `await` on. */
    method FinishReload(ticket: nat, rows: Option<seq<Setting>>) returns (ok: bool)
      modifies this
      ensures View() == Finished(old(View()), ticket, rows) && ok == rows.Some?
      ensures rows.None? || ticket < old(newestApplied) ==> View() == old(View())
      ensures rows.Some? && ticket >= old(newestApplied) ==> View() == Memory(RulesOf(rows.value), true, old(loadsStarted), ticket)
    {
      if rows.None? { return false; }
      if ticket < newestApplied { return true; }
      SetRulesFromSettings(rows.value);
      newestApplied := ticket;
      return true;
    }

    /**
     `savePairMarkupSetting` with nothing else in between: an invalid entry and an unchanged row change nothing, not
     even the memory; otherwise the row is written and the table reloaded.
     */
    method Save(rows: seq<Setting>, fiat: string, side: Option<Side>, cryptos: CryptosInput, markupBps: Option<real>, loads: bool)
      returns (after: seq<Setting>, written: bool)
      modifies this
      ensures var v := Normalize(fiat, side, cryptos, markupBps);
              && (v.Rejected? || v.row in rows ==> !written && after == rows && View() == old(View()))
              && (v.Accepted? && v.row !in rows ==>
                    written && after == Upsert(rows, v.row) &&
                    View() == Finished(Begun(old(View())), old(loadsStarted) + 1, if loads then Some(after) else None))
    {
      var v := Normalize(fiat, side, cryptos, markupBps);
      if v.Rejected? { return rows, false; }
      if v.row in rows { return rows, false; }
      after := Upsert(rows, v.row);
      var ticket := BeginReload();
      var _ := FinishReload(ticket, if loads then Some(after) else None);
      written := true;
    }

    /** `deletePairMarkupSetting` with nothing else in between: an unknown row changes nothing. */
    method Remove(rows: seq<Setting>, row: Setting, loads: bool) returns (after: seq<Setting>, removed: bool)
      modifies this
      ensures row !in rows ==> !removed && after == rows && View() == old(View())
      ensures row in rows ==>
                removed && after == Without(rows, row) &&
                View() == Finished(Begun(old(View())), old(loadsStarted) + 1, if loads then Some(after) else None)
    {
      if row !in rows { return rows, false; }
      after := Without(rows, row);
      var ticket := BeginReload();
      var _ := FinishReload(ticket, if loads then Some(after) else None);
      removed := true;
    }
  }

  // ---------- reloads and writes, interleaved ----------

  /** A reload in flight: it has read table version `seen`, or nothing yet. */
  datatype Load = Load(ticket: nat, seen: Option<nat>)

  /**
   `history` is the table after each write; `begun[t - 1]` the table version when ticket t was taken; `version` the table
   version the rules come from; `applied` the tickets applied so far.
   */
  datatype State = State(memory: Memory, history: seq<seq<Setting>>, begun: seq<nat>, loads: map<nat, Load>, version: nat, applied: seq<nat>)

  predicate Init(s: State) {
    s.memory.loadsStarted == 0 && s.memory.newestApplied == 0 && !s.memory.fromDatabase &&
    |s.history| == 1 && s.begun == [] && s.loads == map[] && s.version == 0 && s.applied == []
  }

  datatype Step =
    | WriteTable(rows: seq<Setting>)
    | Begin(pid: nat)
    | Read(pid: nat)
    | Finish(pid: nat)
    | Fail(pid: nat)

  predicate Enabled(s: State, step: Step) {
    match step
    case WriteTable(_) => true
    case Begin(pid) => pid !in s.loads
    case Read(pid) => pid in s.loads && s.loads[pid].seen.None? && s.history != []
    case Finish(pid) => pid in s.loads && s.loads[pid].seen.Some? && s.loads[pid].seen.value < |s.history|
    case Fail(pid) => pid in s.loads
  }

  function Apply(s: State, step: Step): State
    requires Enabled(s, step)
  {
    match step
    case WriteTable(rows) => s.(history := s.history + [rows])
    case Begin(pid) =>
      s.(memory := Begun(s.memory), begun := s.begun + [if s.history == [] then 0 else |s.history| - 1],
         loads := s.loads[pid := Load(s.memory.loadsStarted + 1, None)])
    case Read(pid) => s.(loads := s.loads[pid := s.loads[pid].(seen := Some(|s.history| - 1))])
    case Finish(pid) =>
      var load := s.loads[pid];
      var s' := s.(memory := Finished(s.memory, load.ticket, Some(s.history[load.seen.value])), loads := s.loads - {pid});
      if load.ticket < s.memory.newestApplied then s'
      else s'.(version := load.seen.value, applied := s.applied + [load.ticket])
    case Fail(pid) => s.(memory := Finished(s.memory, s.loads[pid].ticket, None), loads := s.loads - {pid})
  }

  predicate Legal(s: State, steps: seq<Step>)
    decreases |steps|
  {
    steps == [] || (Enabled(s, steps[0]) && Legal(Apply(s, steps[0]), steps[1..]))
  }

  function Exec(s: State, steps: seq<Step>): State
    requires Legal(s, steps)
    decreases |steps|
  {
    if steps == [] then s else Exec(Apply(s, steps[0]), steps[1..])
  }

  /** The table version when ticket t was taken. */
  function BegunAt(s: State, ticket: nat): nat
    requires 1 <= ticket <= |s.begun|
  {
    s.begun[ticket - 1]
  }

  ghost predicate Increasing(tickets: seq<nat>) {
    forall i, j :: 0 <= i < j < |tickets| ==> tickets[i] < tickets[j]
  }

  ghost predicate LoadOk(s: State, load: Load) {
    1 <= load.ticket <= |s.begun| &&
    (load.seen.Some? ==> BegunAt(s, load.ticket) <= load.seen.value < |s.history|)
  }

  ghost predicate Inv(s: State) {
    && s.history != [] && s.memory.loadsStarted == |s.begun| && s.memory.newestApplied <= |s.begun|
    && (forall i, j :: 0 <= i <= j < |s.begun| ==> s.begun[i] <= s.begun[j] < |s.history|)
    && (forall pid :: pid in s.loads ==> LoadOk(s, s.loads[pid]))
    && (forall p, q :: p in s.loads && q in s.loads && p != q ==> s.loads[p].ticket != s.loads[q].ticket)
    && (forall pid :: pid in s.loads ==> s.loads[pid].ticket != s.memory.newestApplied)
    && (s.applied == [] <==> s.memory.newestApplied == 0)
    && (s.applied != [] ==> s.applied[|s.applied| - 1] == s.memory.newestApplied)
    && Increasing(s.applied)
    && s.version < |s.history|
    && (s.memory.newestApplied > 0 ==>
          s.memory.fromDatabase && s.memory.rules == RulesOf(s.history[s.version]) && BegunAt(s, s.memory.newestApplied) <= s.version)
  }

  lemma BeginInv(s: State, pid: nat)
    requires Inv(s) && Enabled(s, Begin(pid))
    ensures Inv(Apply(s, Begin(pid)))
  {
    var s' := Apply(s, Begin(pid));
    forall p | p in s'.loads ensures LoadOk(s', s'.loads[p]) {
      if p != pid { assert LoadOk(s, s.loads[p]); }
    }
  }

  lemma FinishInv(s: State, pid: nat)
    requires Inv(s) && Enabled(s, Finish(pid))
    ensures Inv(Apply(s, Finish(pid)))
  {
    assert LoadOk(s, s.loads[pid]);
    if s.loads[pid].ticket < s.memory.newestApplied { DroppedInv(s, pid); } else { AppliedInv(s, pid); }
  }

  lemma DroppedInv(s: State, pid: nat)
    requires Inv(s) && Enabled(s, Finish(pid)) && s.loads[pid].ticket < s.memory.newestApplied
    ensures Inv(Apply(s, Finish(pid)))
  {
    var s' := Apply(s, Finish(pid));
    assert s' == s.(loads := s.loads - {pid});
    assert forall p :: p in s'.loads ==> LoadOk(s, s.loads[p]);
  }

  lemma AppliedInv(s: State, pid: nat)
    requires Inv(s) && Enabled(s, Finish(pid)) && s.loads[pid].ticket > s.memory.newestApplied
    ensures Inv(Apply(s, Finish(pid)))
  {
    var load := s.loads[pid];
    var s' := Apply(s, Finish(pid));
    assert LoadOk(s, load);
    assert s'.applied == s.applied + [load.ticket];
    assert forall p :: p in s'.loads ==> LoadOk(s, s.loads[p]);
    LastIsLargest(s.applied);
  }

  lemma LastIsLargest(tickets: seq<nat>)
    requires Increasing(tickets)
    ensures forall i :: 0 <= i < |tickets| ==> tickets[i] <= tickets[|tickets| - 1]
  {
  }

  lemma OtherInv(s: State, step: Step)
    requires Inv(s) && Enabled(s, step) && !step.Begin? && !step.Finish?
    ensures Inv(Apply(s, step))
  {
    var s' := Apply(s, step);
    forall p | p in s'.loads ensures LoadOk(s', s'.loads[p]) { assert LoadOk(s, s.loads[p]); }
  }

  lemma StepInv(s: State, step: Step)
    requires Inv(s) && Enabled(s, step)
    ensures Inv(Apply(s, step))
  {
    match step
    case Begin(pid) => BeginInv(s, pid);
    case Finish(pid) => FinishInv(s, pid);
    case _ => OtherInv(s, step);
  }

  lemma {:induction false} RunInv(s: State, steps: seq<Step>)
    requires Inv(s) && Legal(s, steps)
    ensures Inv(Exec(s, steps))
    decreases |steps|
  {
    if steps != [] {
      StepInv(s, steps[0]);
      RunInv(Apply(s, steps[0]), steps[1..]);
    }
  }

  lemma {:induction false} RunKeepsNewest(s: State, steps: seq<Step>)
    requires Legal(s, steps)
    ensures var e := Exec(s, steps);
            s.memory.newestApplied <= e.memory.newestApplied && |s.begun| <= |e.begun| && e.begun[..|s.begun|] == s.begun &&
            |s.applied| <= |e.applied| && e.applied[..|s.applied|] == s.applied &&
            |s.history| <= |e.history| && e.history[..|s.history|] == s.history
    decreases |steps|
  {
    if steps != [] {
      var s' := Apply(s, steps[0]);
      RunKeepsNewest(s', steps[1..]);
      var e := Exec(s, steps);
      assert e.begun[..|s.begun|] == e.begun[..|s'.begun|][..|s.begun|];
      assert e.applied[..|s.applied|] == e.applied[..|s'.applied|][..|s.applied|];
      assert e.history[..|s.history|] == e.history[..|s'.history|][..|s.history|];
    }
  }

  /** The tickets applied in any run strictly increase. */
  lemma AppliedTicketsIncrease(s: State, steps: seq<Step>)
    requires Init(s) && Legal(s, steps)
    ensures Increasing(Exec(s, steps).applied)
  {
    RunInv(s, steps);
  }

  /**
   Read your writes: once a reload that began after a write has finished without failing (applied, or dropped for a newer
   one), the rules in memory are at every later moment those of a table no older than that write, whatever reloads and
   writes interleave before and after.
   */
  lemma ReadYourWrites(s: State, before: seq<Step>, pid: nat, after: seq<Step>, write: nat)
    requires Init(s) && Legal(s, before) && Enabled(Exec(s, before), Finish(pid))
    requires Legal(Apply(Exec(s, before), Finish(pid)), after)
    requires var m := Exec(s, before);
             var ticket := m.loads[pid].ticket;
             1 <= ticket <= |m.begun| && write <= BegunAt(m, ticket)
    ensures var e := Exec(Apply(Exec(s, before), Finish(pid)), after);
            e.memory.fromDatabase && write <= e.version < |e.history| && e.memory.rules == RulesOf(e.history[e.version])
  {
    var m := Exec(s, before);
    var ticket := m.loads[pid].ticket;
    RunInv(s, before);
    StepInv(m, Finish(pid));
    var m' := Apply(m, Finish(pid));
    RunInv(m', after);
    RunKeepsNewest(m', after);
    var e := Exec(m', after);
    assert ticket <= e.memory.newestApplied;
    assert BegunAt(e, ticket) == e.begun[..|m'.begun|][ticket - 1] == BegunAt(m, ticket);
  }

  /**
   More is not true: what is in memory can go back to an older table. Two reloads begin, the newer one reads before a
   write and the older one after it; the newer one finishes last.
   */
  lemma MemoryCanGoBack(s: State, rows: seq<Setting>)
    requires Init(s)
    ensures var steps := [Begin(0)] + ([Begin(1)] + ([Read(1)] + ([WriteTable(rows)] + ([Read(0)] + ([Finish(0)] + [])))));
            && Legal(s, steps) && Exec(s, steps).version == 1
            && Enabled(Exec(s, steps), Finish(1)) && Apply(Exec(s, steps), Finish(1)).version == 0
  {
    var s1 := Apply(s, Begin(0));
    var s2 := Apply(s1, Begin(1));
    var s3 := Apply(s2, Read(1));
    var s4 := Apply(s3, WriteTable(rows));
    var s5 := Apply(s4, Read(0));
    var s6 := Apply(s5, Finish(0));
    RunCons(s5, Finish(0), []);
    RunCons(s4, Read(0), [Finish(0)] + []);
    RunCons(s3, WriteTable(rows), [Read(0)] + ([Finish(0)] + []));
    RunCons(s2, Read(1), [WriteTable(rows)] + ([Read(0)] + ([Finish(0)] + [])));
    RunCons(s1, Begin(1), [Read(1)] + ([WriteTable(rows)] + ([Read(0)] + ([Finish(0)] + []))));
    RunCons(s, Begin(0), [Begin(1)] + ([Read(1)] + ([WriteTable(rows)] + ([Read(0)] + ([Finish(0)] + [])))));
  }

  /** The state after a reload that took the table as it is. */
  predicate Reloaded(s: State, e: State) {
    var ticket := s.memory.loadsStarted + 1;
    s.history != [] &&
    e.memory == Finished(Begun(s.memory), ticket, Some(s.history[|s.history| - 1])) &&
    e.memory == Memory(RulesOf(s.history[|s.history| - 1]), true, ticket, ticket) &&
    e.loads == s.loads && e.version == |s.history| - 1 && e.history == s.history && e.applied == s.applied + [ticket]
  }

  lemma ReloadSteps(s: State, pid: nat)
    requires Inv(s) && pid !in s.loads
    ensures var s1 := Apply(s, Begin(pid));
            Enabled(s1, Read(pid)) &&
            var s2 := Apply(s1, Read(pid));
            Enabled(s2, Finish(pid)) && Reloaded(s, Apply(s2, Finish(pid)))
  {
    hide RulesOf;
    var s1 := Apply(s, Begin(pid));
    var s2 := Apply(s1, Read(pid));
    assert s.memory.newestApplied <= s.memory.loadsStarted;
    hide Inv;
    assert s2.loads[pid] == Load(s.memory.loadsStarted + 1, Some(|s.history| - 1));
    assert Apply(s2, Finish(pid)).loads == s.loads;
  }

  /** A reload with nothing in between, as the methods of `Store` run it: it takes the table as it is. */
  lemma ReloadRuns(s: State, pid: nat)
    requires Inv(s) && pid !in s.loads
    ensures var steps := [Begin(pid)] + ([Read(pid)] + ([Finish(pid)] + []));
            Legal(s, steps) && Reloaded(s, Exec(s, steps))
  {
    hide Inv, Apply, Reloaded, RulesOf, Finished, Begun;
    ReloadSteps(s, pid);
    var s1 := Apply(s, Begin(pid));
    var s2 := Apply(s1, Read(pid));
    RunCons(s2, Finish(pid), []);
    RunCons(s1, Read(pid), [Finish(pid)] + []);
    RunCons(s, Begin(pid), [Read(pid)] + ([Finish(pid)] + []));
  }

  /** One that fails leaves no trace but its ticket. */
  lemma FailedReloadRuns(s: State, pid: nat)
    requires Inv(s) && pid !in s.loads
    ensures var steps := [Begin(pid)] + ([Fail(pid)] + []);
            && Legal(s, steps)
            && var e := Exec(s, steps);
               && e.memory == Finished(Begun(s.memory), s.memory.loadsStarted + 1, None)
               && e.memory == s.memory.(loadsStarted := s.memory.loadsStarted + 1)
               && e.loads == s.loads && e.version == s.version && e.history == s.history && e.applied == s.applied
  {
    hide RulesOf, Inv;
    var s1 := Apply(s, Begin(pid));
    var e := Apply(s1, Fail(pid));
    assert e.loads == s.loads;
    hide Apply;
    RunCons(s1, Fail(pid), []);
    RunCons(s, Begin(pid), [Fail(pid)] + []);
  }

  lemma RunCons(s: State, step: Step, rest: seq<Step>)
    requires Enabled(s, step) && Legal(Apply(s, step), rest)
    ensures Legal(s, [step] + rest) && Exec(s, [step] + rest) == Exec(Apply(s, step), rest)
  {
    assert ([step] + rest)[1..] == rest;
  }
}
