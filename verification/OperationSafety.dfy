/** What every run of the Supervisor keeps, whatever builds, clients, crashes and restarts do. */
module OperationSafety {
  import opened Collections
  import opened OperationTable

  // ----- the invariant -----

  ghost predicate RecordOk(id: OperationId, operation: Operation) {
    && operation.operationId == id
    && (operation.acknowledged ==> operation.state.IsTerminal())
    && (operation.artifact.Some? ==> operation.state.Built? || operation.state.Finalized? || operation.state.Aborted?)
    && (operation.state.Built? || operation.state.Finalized? ==> operation.artifact.Some?)
  }

  ghost predicate BuildOk(operation: Operation, build: Build) {
    && operation.pluginId == build.plugin
    && operation.artifact.None?
    && (operation.state.Aborted? || (if build.phase.Spawned? then operation.state.Accepted? else operation.state.Building?))
  }

  ghost predicate Records(s: Supervisor) {
    forall id :: id in s.table.operations ==> RecordOk(id, s.table.operations[id].operation)
  }

  ghost predicate Builds(s: Supervisor) {
    && (s.builds != map[] ==> s.up)
    && (forall id :: id in s.builds ==>
          id in s.table.operations && BuildOk(s.table.operations[id].operation, s.builds[id]))
    && (s.up ==> forall id :: id in s.table.operations ==>
          var state := s.table.operations[id].operation.state;
          state.Accepted? || state.Building? ==> id in s.builds)
  }

  ghost predicate OneActive(s: Supervisor) {
    forall i, j :: i in NonTerminal(s.table) && j in NonTerminal(s.table) ==> i == j
  }

  ghost predicate Precedes(t: Table, i: OperationId, j: OperationId)
    requires i in t.operations && j in t.operations
  {
    && i != j
    && (t.operations[i].sequence < t.operations[j].sequence
        || t.operations[i].sequence == t.operations[j].sequence == U64_MAX)
  }

  ghost predicate Ascending(t: Table, order: seq<OperationId>) {
    && (forall id :: id in order ==> id in t.operations)
    && (forall i, j :: 0 <= i < j < |order| ==> Precedes(t, order[i], order[j]))
  }

  /** Numbers are handed out in creation order, up to the point where the counter saturates. */
  ghost predicate Numbered(t: Table, order: seq<OperationId>) {
    && (forall id :: id in t.operations ==> id in order)
    && t.nextSequence <= U64_MAX
    && Ascending(t, order)
    && (forall id :: id in t.operations ==>
          t.operations[id].sequence < t.nextSequence || t.operations[id].sequence == t.nextSequence == U64_MAX)
  }

  ghost predicate Inv(s: Supervisor) {
    && Records(s) && Builds(s) && OneActive(s)
    && |Unacknowledged(s.table)| <= MAX_UNACKNOWLEDGED
    && Numbered(s.table, s.order)
  }

  // ----- one step -----

  /** A request of Core. */
  predicate IsRequest(e: Event) {
    e.BeginCall? || e.FinalizeCall? || e.AbortCall? || e.AcknowledgeCall?
  }

  /** A background build moves. */
  predicate IsBuild(e: Event) {
    e.BuildStarts? || e.BuildSucceeds? || e.BuildFails? || e.BuildPublishes? || e.BuildCannotWrite?
  }

  /** The process stops or comes back. */
  predicate IsRestart(e: Event) {
    e.Crash? || e.RestartFails? || e.Reopen?
  }

  /** The build of `id` has taken up its work and has not reported yet. */
  ghost predicate Unreported(s: Supervisor, id: OperationId) {
    id in s.builds && !s.builds[id].phase.Spawned?
  }

  /** How a record may look later; `unreported` is about its build at the earlier moment. */
  ghost predicate Evolves(before: Operation, after: Operation, unreported: bool) {
    && after.operationId == before.operationId && after.pluginId == before.pluginId
    && (before.state.Finalized? ==> after.state.Finalized?)
    && (before.state.Failed? ==> after.state.Failed?)
    && (before.state.Aborted? ==> after.state.Aborted? || (after.state.Failed? && unreported))
    && (before.artifact.Some? ==> after.artifact == before.artifact)
    && (before.acknowledged ==> after.acknowledged)
  }

  lemma RequestEvolves(s: Supervisor, e: Event, s': Supervisor, id: OperationId)
    requires Records(s) && Builds(s) && Step(s, e, s')
    requires id in s.table.operations && id in s'.table.operations
    requires IsRequest(e)
    ensures Evolves(s.table.operations[id].operation, s'.table.operations[id].operation, Unreported(s, id))
    ensures s.table.operations[id].operation.state.Aborted? && Unreported(s', id) ==> Unreported(s, id)
  {}

  lemma BuildEvolves(s: Supervisor, e: Event, s': Supervisor, id: OperationId)
    requires Records(s) && Builds(s) && Step(s, e, s')
    requires id in s.table.operations && id in s'.table.operations
    requires IsBuild(e)
    ensures Evolves(s.table.operations[id].operation, s'.table.operations[id].operation, Unreported(s, id))
    ensures s.table.operations[id].operation.state.Aborted? && Unreported(s', id) ==> Unreported(s, id)
  {}

  lemma RestartEvolves(s: Supervisor, e: Event, s': Supervisor, id: OperationId)
    requires Records(s) && Builds(s) && Step(s, e, s')
    requires id in s.table.operations && id in s'.table.operations
    requires IsRestart(e)
    ensures Evolves(s.table.operations[id].operation, s'.table.operations[id].operation, Unreported(s, id))
    ensures s.table.operations[id].operation.state.Aborted? && Unreported(s', id) ==> Unreported(s, id)
  {}

  lemma StepEvolves(s: Supervisor, e: Event, s': Supervisor, id: OperationId)
    requires Records(s) && Builds(s) && Step(s, e, s')
    requires id in s.table.operations && id in s'.table.operations
    ensures Evolves(s.table.operations[id].operation, s'.table.operations[id].operation, Unreported(s, id))
    ensures s.table.operations[id].operation.state.Aborted? && Unreported(s', id) ==> Unreported(s, id)
  {
    if IsRequest(e) {
      RequestEvolves(s, e, s', id);
    } else if IsBuild(e) {
      BuildEvolves(s, e, s', id);
    } else {
      RestartEvolves(s, e, s', id);
    }
  }

  /** Records appear only by begin and disappear only when an acknowledged one expires. */
  lemma StepDomain(s: Supervisor, e: Event, s': Supervisor, id: OperationId)
    requires Step(s, e, s')
    ensures id in s.table.operations && id !in s'.table.operations ==>
              && e.Reopen? && id in e.expired
              && s.table.operations[id].operation.state.IsTerminal() && s.table.operations[id].operation.acknowledged
    ensures id !in s.table.operations && id in s'.table.operations ==> e.BeginCall? && e.id == id
    ensures e.Reopen? && id in e.expired ==> id in s.table.operations && id !in s'.table.operations
  {}

  /** An Aborted operation can be overwritten with Failed exactly while its build is at work. */
  lemma AbortedOverwritable(s: Supervisor, id: OperationId)
    requires Inv(s) && id in s.table.operations && s.table.operations[id].operation.state.Aborted?
    ensures (exists e, s' :: Step(s, e, s') && id in s'.table.operations && s'.table.operations[id].operation.state.Failed?)
            <==> Unreported(s, id)
  {
    if Unreported(s, id) {
      var e := if s.builds[id].phase.Running? then BuildFails(id, "") else BuildCannotWrite(id, "");
      var s' := EndBuild(s, id, SetFailed(s.table, s.builds[id].plugin, id, "").0);
      assert Step(s, e, s');
    }
    forall e, s' | Step(s, e, s') && id in s'.table.operations {
      StepEvolves(s, e, s', id);
    }
  }

  /** An artifact that shows up outside Built was there before the step. */
  lemma StepArtifactOrigin(s: Supervisor, e: Event, s': Supervisor, id: OperationId)
    requires Records(s) && Builds(s) && Step(s, e, s')
    requires id in s'.table.operations && s'.table.operations[id].operation.artifact.Some?
    requires !s'.table.operations[id].operation.state.Built?
    ensures id in s.table.operations
    ensures s.table.operations[id].operation.artifact == s'.table.operations[id].operation.artifact
  {}

  lemma StepRecords(s: Supervisor, e: Event, s': Supervisor)
    requires Records(s) && Builds(s) && Step(s, e, s')
    ensures Records(s')
  {}

  lemma RequestBuilds(s: Supervisor, e: Event, s': Supervisor)
    requires Records(s) && Builds(s) && Step(s, e, s')
    requires IsRequest(e)
    ensures Builds(s')
  {}

  lemma BuildBuilds(s: Supervisor, e: Event, s': Supervisor)
    requires Records(s) && Builds(s) && Step(s, e, s')
    requires IsBuild(e)
    ensures Builds(s')
  {}

  lemma RestartBuilds(s: Supervisor, e: Event, s': Supervisor)
    requires Records(s) && Builds(s) && Step(s, e, s')
    requires IsRestart(e)
    ensures Builds(s')
  {}

  lemma StepBuilds(s: Supervisor, e: Event, s': Supervisor)
    requires Records(s) && Builds(s) && Step(s, e, s')
    ensures Builds(s')
  {
    if IsRequest(e) {
      RequestBuilds(s, e, s');
    } else if IsBuild(e) {
      BuildBuilds(s, e, s');
    } else {
      RestartBuilds(s, e, s');
    }
  }

  lemma NonTerminalOrigin(s: Supervisor, e: Event, s': Supervisor, id: OperationId)
    requires Records(s) && Builds(s) && Step(s, e, s') && id in NonTerminal(s'.table)
    ensures id in NonTerminal(s.table) || (e.BeginCall? && id == e.id && NonTerminal(s.table) == {})
  {
    if id in s.table.operations {
      StepEvolves(s, e, s', id);
    } else {
      StepDomain(s, e, s', id);
    }
  }

  lemma StepOneActive(s: Supervisor, e: Event, s': Supervisor)
    requires Inv(s) && Step(s, e, s')
    ensures OneActive(s')
  {
    forall i, j | i in NonTerminal(s'.table) && j in NonTerminal(s'.table) ensures i == j {
      NonTerminalOrigin(s, e, s', i);
      NonTerminalOrigin(s, e, s', j);
    }
  }

  /** Only a new operation becomes unacknowledged. */
  lemma UnacknowledgedOrigin(s: Supervisor, e: Event, s': Supervisor, id: OperationId)
    requires Records(s) && Builds(s) && Step(s, e, s') && id in Unacknowledged(s'.table)
    ensures id in Unacknowledged(s.table) || (e.BeginCall? && e.id == id && id !in s.table.operations)
  {
    if id in s.table.operations {
      StepEvolves(s, e, s', id);
    } else {
      StepDomain(s, e, s', id);
    }
  }

  lemma BeginRoom(s: Supervisor, e: Event, s': Supervisor)
    requires Step(s, e, s') && e.BeginCall? && e.id !in s.table.operations && e.id in s'.table.operations
    ensures |Unacknowledged(s.table)| < MAX_UNACKNOWLEDGED
  {
  }

  lemma StepCapacity(s: Supervisor, e: Event, s': Supervisor)
    requires Inv(s) && Step(s, e, s')
    ensures |Unacknowledged(s'.table)| <= MAX_UNACKNOWLEDGED
  {
    var before, after := Unacknowledged(s.table), Unacknowledged(s'.table);
    if e.BeginCall? && e.id !in s.table.operations && e.id in s'.table.operations {
      BeginRoom(s, e, s');
      forall id | id in after ensures id in before + {e.id} { UnacknowledgedOrigin(s, e, s', id); }
      SubsetSize(after, before + {e.id});
    } else {
      forall id | id in after ensures id in before { UnacknowledgedOrigin(s, e, s', id); }
      SubsetSize(after, before);
    }
  }

  lemma StepNumbered(s: Supervisor, e: Event, s': Supervisor)
    requires Inv(s) && Step(s, e, s')
    ensures Numbered(s'.table, s'.order)
  {
    if e.Reopen? {
      FilterNumbered(s.table, s.order, e.expired, s'.table);
    } else if s'.order != s.order {
      BeginNumbered(s.table, s.order, e.plugin, e.id);
    } else {
      StepKeepsNumbers(s, e, s');
      SameNumbers(s.table, s'.table, s.order);
    }
  }

  ghost predicate SameSequences(t: Table, t': Table) {
    && t'.operations.Keys == t.operations.Keys && t'.nextSequence == t.nextSequence
    && forall id :: id in t.operations ==> t'.operations[id].sequence == t.operations[id].sequence
  }

  lemma StepKeepsNumbers(s: Supervisor, e: Event, s': Supervisor)
    requires Step(s, e, s') && !e.Reopen? && s'.order == s.order
    ensures SameSequences(s.table, s'.table)
  {}

  lemma SameNumbers(t: Table, t': Table, order: seq<OperationId>)
    requires Numbered(t, order) && SameSequences(t, t')
    ensures Numbered(t', order)
  {
    forall i, j | 0 <= i < j < |order| ensures Precedes(t', order[i], order[j]) {
      assert Precedes(t, order[i], order[j]);
    }
  }

  lemma BeginNumbered(t: Table, order: seq<OperationId>, plugin: PluginId, id: OperationId)
    requires Numbered(t, order) && id !in t.operations && Begin(t, plugin, id).1.Ok?
    ensures Numbered(Begin(t, plugin, id).0, order + [id])
  {
    var t' := Begin(t, plugin, id).0;
    forall i, j | 0 <= i < j < |order + [id]| ensures Precedes(t', (order + [id])[i], (order + [id])[j]) {
      assert order[i] in order;
      if j < |order| { assert Precedes(t, order[i], order[j]); }
    }
  }

  lemma FirstPrecedes(t: Table, order: seq<OperationId>)
    requires Ascending(t, order) && order != []
    ensures order[0] in t.operations && forall id :: id in order[1..] ==> id in t.operations && Precedes(t, order[0], id)
  {
    assert order[0] in order;
    forall id | id in order[1..] ensures id in t.operations && Precedes(t, order[0], id) {
      var j :| 0 <= j < |order[1..]| && order[1..][j] == id;
      assert order[j + 1] == id && id in order;
    }
  }

  lemma AscendingCons(t: Table, first: OperationId, rest: seq<OperationId>)
    requires first in t.operations && Ascending(t, rest)
    requires forall id :: id in rest ==> Precedes(t, first, id)
    ensures Ascending(t, [first] + rest)
  {
    var order := [first] + rest;
    forall i, j | 0 <= i < j < |order| ensures Precedes(t, order[i], order[j]) {
      assert order[j] == rest[j - 1] && rest[j - 1] in rest;
    }
  }

  lemma {:induction false} FilterAscending(t: Table, order: seq<OperationId>, keep: OperationId -> bool)
    requires Ascending(t, order)
    ensures Ascending(t, Filter(order, keep))
  {
    if order != [] {
      FilterAscending(t, order[1..], keep);
      FirstPrecedes(t, order);
      AscendingCons(t, order[0], Filter(order[1..], keep));
    }
  }

  lemma ResumeNumbers(t: Table, order: seq<OperationId>, next: nat, id: OperationId)
    requires Numbered(t, order) && IsResumePoint(t.operations, next) && id in t.operations
    ensures t.operations[id].sequence < next || t.operations[id].sequence == next == U64_MAX
  {
    assert SaturatingSucc(t.operations[id].sequence) <= next;
  }

  lemma AscendingWithin(t: Table, t': Table, order: seq<OperationId>)
    requires Ascending(t, order)
    requires forall id :: id in order ==> id in t'.operations && t'.operations[id] == t.operations[id]
    ensures Ascending(t', order)
  {
    forall i, j | 0 <= i < j < |order| ensures Precedes(t', order[i], order[j]) {
      assert Precedes(t, order[i], order[j]);
    }
  }

  /** Dropping expired records keeps the rest numbered in order. */
  lemma FilterNumbered(t: Table, order: seq<OperationId>, expired: set<OperationId>, t': Table)
    requires Numbered(t, order)
    requires t'.operations == t.operations - expired
    requires IsResumePoint(t.operations, t'.nextSequence)
    ensures Numbered(t', Filter(order, NotIn(expired)))
  {
    FilterAscending(t, order, NotIn(expired));
    AscendingWithin(t, t', Filter(order, NotIn(expired)));
    forall id | id in t'.operations
      ensures t'.operations[id].sequence < t'.nextSequence || t'.operations[id].sequence == t'.nextSequence == U64_MAX
    {
      ResumeNumbers(t, order, t'.nextSequence, id);
    }
  }

  lemma StepInv(s: Supervisor, e: Event, s': Supervisor)
    requires Inv(s) && Step(s, e, s')
    ensures Inv(s')
  {
    StepRecords(s, e, s');
    StepBuilds(s, e, s');
    StepOneActive(s, e, s');
    StepCapacity(s, e, s');
    StepNumbered(s, e, s');
  }

  // ----- whole runs -----

  ghost predicate StepAt(states: seq<Supervisor>, events: seq<Event>, i: int)
    requires 0 <= i < |events| < |states|
  {
    Step(states[i], events[i], states[i + 1])
  }

  ghost predicate IsRun(states: seq<Supervisor>, events: seq<Event>) {
    && |states| == |events| + 1
    && Init(states[0])
    && forall i :: 0 <= i < |events| ==> StepAt(states, events, i)
  }

  /** The record of `id` is never cleaned away between the two moments. */
  ghost predicate Retained(states: seq<Supervisor>, id: OperationId, i: nat, j: nat)
    requires j < |states|
  {
    forall k :: i <= k <= j ==> id in states[k].table.operations
  }

  lemma {:induction false} RunInv(states: seq<Supervisor>, events: seq<Event>, i: nat)
    requires IsRun(states, events) && i < |states|
    ensures Inv(states[i])
  {
    if i > 0 {
      RunInv(states, events, i - 1);
      assert StepAt(states, events, i - 1);
      StepInv(states[i - 1], events[i - 1], states[i]);
    }
  }

  /**
   Terminal operations stay terminal. Finalized and Failed are absorbing; Aborted can turn
   only into Failed, and only if its build had not reported by then. An artifact, once
   recorded, never changes.
   */
  lemma {:induction false} RunEvolves(states: seq<Supervisor>, events: seq<Event>, id: OperationId, i: nat, j: nat)
    requires IsRun(states, events) && i <= j < |states| && Retained(states, id, i, j)
    ensures Evolves(states[i].table.operations[id].operation, states[j].table.operations[id].operation, Unreported(states[i], id))
    ensures states[i].table.operations[id].operation.state.Aborted? && Unreported(states[j], id) ==> Unreported(states[i], id)
    decreases j - i
  {
    if i < j {
      RunEvolves(states, events, id, i, j - 1);
      RunStepEvolves(states, events, id, j - 1);
    }
  }

  lemma RunStepEvolves(states: seq<Supervisor>, events: seq<Event>, id: OperationId, i: nat)
    requires IsRun(states, events) && i + 1 < |states|
    requires id in states[i].table.operations && id in states[i + 1].table.operations
    ensures Evolves(states[i].table.operations[id].operation, states[i + 1].table.operations[id].operation, Unreported(states[i], id))
    ensures states[i].table.operations[id].operation.state.Aborted? && Unreported(states[i + 1], id) ==> Unreported(states[i], id)
    ensures Unreported(states[i + 1], id) ==> !states[i + 1].table.operations[id].operation.state.Failed?
  {
    RunInv(states, events, i);
    RunInv(states, events, i + 1);
    assert StepAt(states, events, i);
    StepEvolves(states[i], events[i], states[i + 1], id);
  }

  /** Whoever holds an artifact, in whatever state, was Built with exactly that artifact at some moment. */
  lemma {:induction false} ArtifactWasBuilt(states: seq<Supervisor>, events: seq<Event>, id: OperationId, i: nat)
    requires IsRun(states, events) && i < |states| && id in states[i].table.operations
    requires states[i].table.operations[id].operation.artifact.Some?
    ensures exists k :: 0 <= k <= i && id in states[k].table.operations
              && states[k].table.operations[id].operation.state.Built?
              && states[k].table.operations[id].operation.artifact == states[i].table.operations[id].operation.artifact
  {
    if !states[i].table.operations[id].operation.state.Built? && i > 0 {
      RunInv(states, events, i - 1);
      assert StepAt(states, events, i - 1);
      StepArtifactOrigin(states[i - 1], events[i - 1], states[i], id);
      ArtifactWasBuilt(states, events, id, i - 1);
    }
  }
}
