/**
 Which operations Core can ever acknowledge. A thread acknowledges only after its abort was
 confirmed, after its row was completed or rolled back, or for a row that is installed; so an
 operation that fails without having been aborted is never acknowledged, keeps its place in the
 table for good, and enough of them leave no place for a new one.
 */
module InstallAcknowledgement {
  import opened Collections
  import opened OperationTable
  import opened OperationSafety
  import opened InstallProtocol
  import opened InstallSafety

  /** The operation is Finalized or Aborted. */
  ghost predicate Settled(s: System, id: OperationId) {
    Fate(s, id).Some? && (Fate(s, id).value.state.Finalized? || Fate(s, id).value.state.Aborted?)
  }

  ghost predicate Acknowledged(s: System, id: OperationId) {
    id in s.sup.table.operations && s.sup.table.operations[id].operation.acknowledged
  }

  /** Some thread has come to acknowledge the operation. */
  ghost predicate Sends(s: System, plugin: PluginId, id: OperationId) {
    (plugin, id) in s.acks
  }

  /** Every thread that is about to acknowledge is on record. */
  ghost predicate OnRecord(s: System) {
    forall k :: k in s.tasks && s.tasks[k].CallAcknowledge? ==> (s.tasks[k].plugin, s.tasks[k].id) in s.acks
  }

  // ----- one move -----

  /** What the Supervisor executes in a move, if anything; an acknowledgement only when one is on record. */
  lemma SupervisorEvent(s: System, m: Move, s': System) returns (e: Option<Event>)
    requires Next(s, m, s') && OnRecord(s)
    ensures e.None? ==> s'.sup == s.sup
    ensures e.Some? ==> Step(s.sup, e.value, s'.sup)
    ensures e.Some? && e.value.AcknowledgeCall? ==> (e.value.plugin, e.value.id) in s.acks
  {
    e := None;
    if m.SupervisorMove? {
      e := Some(m.e);
    } else if m.TaskMove? && s'.sup != s.sup {
      var task := s.tasks[m.k];
      e := Some(if task.CallBegin? then BeginCall(task.plugin, task.id) else CallEvent(task));
    }
  }

  lemma OnRecordKept(s: System, m: Move, s': System)
    requires Next(s, m, s') && OnRecord(s)
    ensures OnRecord(s') && s.acks <= s'.acks
  {
    if m.TaskMove? {
      TaskMoveKeepsRecord(s, m.k, s');
    }
  }

  /** A thread's move ends in some `Become`. */
  lemma TaskMoveKeepsRecord(s: System, k: nat, s': System)
    requires TaskStep(s, k, s') && OnRecord(s)
    ensures OnRecord(s') && s.acks <= s'.acks
  {
    var s1, next := LastBecome(s, k, s');
    forall l | l in s'.tasks && s'.tasks[l].CallAcknowledge? ensures (s'.tasks[l].plugin, s'.tasks[l].id) in s'.acks {
      if l != k { assert l in s.tasks && s'.tasks[l] == s.tasks[l]; }
    }
  }

  lemma LastBecome(s: System, k: nat, s': System) returns (s1: System, next: Option<Task>)
    requires TaskStep(s, k, s')
    ensures s' == Become(s1, k, next) && s1.tasks == s.tasks && s1.acks == s.acks && k in s.tasks
    ensures next.Some? && next.value.CallAcknowledge? ==>
              || (MayBecome(s, s.tasks[k], next) && s1 == s)
              || (IsCall(s.tasks[k]) && CallStep(s, k, s') && s1 == s.(sup := s'.sup)
                  && next == AfterCall(s.tasks[k], CallReply(s.sup.table, CallEvent(s.tasks[k]))))
              || (ChangesRow(s.tasks[k]) && RowEffect(s, s.tasks[k], s1) && MayFollowRow(s.tasks[k], next))
  {
    var task := s.tasks[k];
    if n :| MayBecome(s, task, n) && s' == Become(s, k, n) {
      s1, next := s, n;
    } else if task.CallBegin? {
      var CallBegin(plugin, id, staged) := task;
      if s' == Become(s.(sent := s.sent + {(plugin, id)}), k, Some(Recover(plugin, id, staged))) {
        s1, next := s.(sent := s.sent + {(plugin, id)}), Some(Recover(plugin, id, staged));
      } else {
        var r := Begin(s.sup.table, plugin, id).1;
        s1, next := s.(sup := s'.sup), Some(if r.Ok? then Wait(plugin, id, staged, r.value) else Recover(plugin, id, staged));
      }
    } else if IsCall(task) {
      s1, next := s.(sup := s'.sup), AfterCall(task, CallReply(s.sup.table, CallEvent(task)));
    } else {
      var t, n :| RowEffect(s, task, t) && MayFollowRow(task, n) && s' == Become(t, k, n);
      s1, next := t, n;
    }
  }

  lemma DecidedToAcknowledge(s: System, task: Task, next: Option<Task>)
    requires TaskOk(s, task) && MayBecome(s, task, next) && next.Some? && next.value.CallAcknowledge?
    ensures Settled(s, next.value.id)
  {
    assert task.Decide?;
  }

  lemma RowThenAcknowledge(s: System, task: Task, next: Option<Task>)
    requires TaskOk(s, task) && ChangesRow(task) && MayFollowRow(task, next) && next.Some? && next.value.CallAcknowledge?
    ensures Settled(s, next.value.id)
  {
  }

  lemma AbortThenAcknowledge(s: System, k: nat, s': System, next: Option<Task>)
    requires k in s.tasks && IsCall(s.tasks[k]) && CallStep(s, k, s')
    requires next == AfterCall(s.tasks[k], CallReply(s.sup.table, CallEvent(s.tasks[k])))
    requires next.Some? && next.value.CallAcknowledge?
    ensures Settled(s', next.value.id)
  {
    assert s.tasks[k].CallAbort?;
    AbortReply(s.sup, s.tasks[k].plugin, s.tasks[k].id, s'.sup);
  }

  /** A thread comes to acknowledge an operation only when that is Finalized or Aborted. */
  lemma AckOrigin(s: System, m: Move, s': System, plugin: PluginId, id: OperationId)
    requires Safe(s) && Next(s, m, s') && (plugin, id) in s'.acks && (plugin, id) !in s.acks
    ensures Settled(s, id) || Settled(s', id)
  {
    TaskAckOrigin(s, m.k, s', plugin, id);
  }

  lemma TaskAckOrigin(s: System, k: nat, s': System, plugin: PluginId, id: OperationId)
    requires Safe(s) && TaskStep(s, k, s') && (plugin, id) in s'.acks && (plugin, id) !in s.acks
    ensures Settled(s, id) || Settled(s', id)
  {
    var s1, next := LastBecome(s, k, s');
    var task := s.tasks[k];
    assert TaskOk(s, task) && next == Some(CallAcknowledge(plugin, id));
    if MayBecome(s, task, next) {
      DecidedToAcknowledge(s, task, next);
    } else if IsCall(task) {
      AbortThenAcknowledge(s, k, s', next);
    } else {
      RowThenAcknowledge(s, task, next);
    }
  }

  /** A record becomes acknowledged only when a thread had come to acknowledge it. */
  lemma AcknowledgedOrigin(s: System, m: Move, s': System, id: OperationId) returns (plugin: PluginId)
    requires Safe(s) && OnRecord(s) && Next(s, m, s') && Acknowledged(s', id) && !Acknowledged(s, id)
    ensures (plugin, id) in s.acks
  {
    var e := SupervisorEvent(s, m, s');
    assert e.Some?;
    AcknowledgingEvent(s.sup, e.value, s'.sup, id);
    plugin := e.value.plugin;
  }

  lemma AcknowledgingEvent(s: Supervisor, e: Event, s': Supervisor, id: OperationId)
    requires Step(s, e, s') && id in s'.table.operations && s'.table.operations[id].operation.acknowledged
    requires id in s.table.operations ==> !s.table.operations[id].operation.acknowledged
    ensures e.AcknowledgeCall? && e.id == id
  {
  }

  // ----- whole runs -----

  ghost predicate SettledAt(states: seq<System>, k: int, id: OperationId) {
    0 <= k < |states| && Settled(states[k], id)
  }

  /** The operation has been Finalized or Aborted at some moment up to `i`. */
  ghost predicate EverSettled(states: seq<System>, i: int, id: OperationId) {
    exists k :: k <= i && SettledAt(states, k, id)
  }

  lemma SettledNowOrBefore(states: seq<System>, j: nat, id: OperationId)
    requires EverSettled(states, j, id)
    ensures SettledAt(states, j, id) || EverSettled(states, j - 1, id)
  {
    var k :| k <= j && SettledAt(states, k, id);
    if k < j { assert k <= j - 1; }
  }

  /** Up to moment `i`, whatever is or is going to be acknowledged has been settled. */
  ghost predicate AcksSettled(states: seq<System>, i: int)
    requires 0 <= i < |states|
  {
    && OnRecord(states[i])
    && (forall plugin, id :: Sends(states[i], plugin, id) ==> EverSettled(states, i, id))
    && (forall id :: Acknowledged(states[i], id) ==> EverSettled(states, i, id))
  }

  lemma StillSettled(states: seq<System>, i: int, j: int, id: OperationId)
    requires i <= j && EverSettled(states, i, id)
    ensures EverSettled(states, j, id)
  {
  }

  lemma AcksSettledNext(states: seq<System>, moves: seq<Move>, i: nat)
    requires IsSystemRun(states, moves) && i < |moves| && AcksSettled(states, i)
    ensures AcksSettled(states, i + 1)
  {
    var j := i + 1;
    var s' := states[j];
    SystemRunSafe(states, moves, i);
    assert NextAt(states, moves, i);
    OnRecordKept(states[i], moves[i], s');
    forall plugin, id | Sends(s', plugin, id) ensures EverSettled(states, j, id) {
      if Sends(states[i], plugin, id) {
        StillSettled(states, i, j, id);
      } else {
        AckOrigin(states[i], moves[i], s', plugin, id);
        assert SettledAt(states, i, id) || SettledAt(states, j, id);
      }
    }
    forall id | Acknowledged(s', id) ensures EverSettled(states, j, id) {
      if !Acknowledged(states[i], id) {
        var plugin := AcknowledgedOrigin(states[i], moves[i], s', id);
        assert Sends(states[i], plugin, id);
      }
      StillSettled(states, i, j, id);
    }
  }

  lemma {:induction false} RunAcksSettled(states: seq<System>, moves: seq<Move>, i: nat)
    requires IsSystemRun(states, moves) && i < |states|
    ensures AcksSettled(states, i)
  {
    if i > 0 {
      RunAcksSettled(states, moves, i - 1);
      AcksSettledNext(states, moves, i - 1);
    }
  }

  /** In every run, only operations that have been Finalized or Aborted are ever acknowledged. */
  lemma AcknowledgedWasSettled(states: seq<System>, moves: seq<Move>, i: nat, id: OperationId)
    requires IsSystemRun(states, moves) && i < |states| && Acknowledged(states[i], id)
    ensures EverSettled(states, i, id)
  {
    RunAcksSettled(states, moves, i);
  }

  /** The operation has failed and waits to be acknowledged. */
  ghost predicate Stuck(s: System, id: OperationId) {
    && id in s.sup.table.operations
    && s.sup.table.operations[id].operation.state.Failed?
    && !s.sup.table.operations[id].operation.acknowledged
  }

  lemma FailedStays(s: System, m: Move, s': System, id: OperationId)
    requires Safe(s) && OnRecord(s) && Next(s, m, s') && Stuck(s, id)
    ensures id in s'.sup.table.operations && s'.sup.table.operations[id].operation.state.Failed?
  {
    var e := SupervisorEvent(s, m, s');
    if e.Some? {
      StepDomain(s.sup, e.value, s'.sup, id);
      StepEvolves(s.sup, e.value, s'.sup, id);
    }
  }

  lemma FailedAt(states: seq<System>, moves: seq<Move>, j: nat, id: OperationId)
    requires IsSystemRun(states, moves) && 0 < j < |states| && Stuck(states[j - 1], id)
    ensures id in states[j].sup.table.operations && states[j].sup.table.operations[id].operation.state.Failed?
  {
    SystemRunSafe(states, moves, j - 1);
    RunAcksSettled(states, moves, j - 1);
    assert NextAt(states, moves, j - 1);
    FailedStays(states[j - 1], moves[j - 1], states[j], id);
  }

  /** An operation that failed without ever having been aborted stays unacknowledged for the rest of every run. */
  lemma {:induction false} FailedIsStuck(states: seq<System>, moves: seq<Move>, i: nat, j: nat, id: OperationId)
    requires IsSystemRun(states, moves) && i <= j < |states|
    requires Stuck(states[i], id) && !EverSettled(states, i, id)
    ensures Stuck(states[j], id) && !EverSettled(states, j, id)
    decreases j - i
  {
    if i < j {
      FailedIsStuck(states, moves, i, j - 1, id);
      FailedAt(states, moves, j, id);
      if EverSettled(states, j, id) { SettledNowOrBefore(states, j, id); }
      if Acknowledged(states[j], id) { AcknowledgedWasSettled(states, moves, j, id); }
    }
  }

  /** A part that is at least as large as the whole is the whole. */
  lemma WholePart<T>(part: set<T>, whole: set<T>)
    requires part <= whole && |whole| <= |part|
    ensures part == whole
  {
    if part != whole {
      var o :| o in whole && o !in part;
      SubsetSize(part + {o}, whole);
    }
  }

  /** A table full of unacknowledged terminal operations is not busy, and takes no new one. */
  lemma FullTable(t: Table, plugin: PluginId, id: OperationId)
    requires |Unacknowledged(t)| >= MAX_UNACKNOWLEDGED && id !in t.operations
    requires forall o :: o in t.operations ==> t.operations[o].operation.state.IsTerminal()
    ensures Begin(t, plugin, id) == (t, Err(OperationCapacityReached))
  {
  }

  /** Once 256 operations have failed without having been aborted, no later begin of a new operation goes through. */
  lemma FailuresExhaustTheTable(states: seq<System>, moves: seq<Move>, i: nat, j: nat, stuck: set<OperationId>,
                                plugin: PluginId, id: OperationId)
    requires IsSystemRun(states, moves) && i <= j < |states| && |stuck| >= MAX_UNACKNOWLEDGED
    requires forall o :: o in stuck ==> Stuck(states[i], o) && !EverSettled(states, i, o)
    requires id !in states[j].sup.table.operations
    ensures Begin(states[j].sup.table, plugin, id) == (states[j].sup.table, Err(OperationCapacityReached))
  {
    var t := states[j].sup.table;
    SystemRunSafe(states, moves, j);
    forall o | o in stuck ensures Stuck(states[j], o) { FailedIsStuck(states, moves, i, j, o); }
    WholePart(stuck, Unacknowledged(t));
    forall o | o in t.operations ensures t.operations[o].operation.state.IsTerminal() {
      if !t.operations[o].operation.acknowledged { assert o in stuck; }
    }
    FullTable(t, plugin, id);
  }
}
