/** Rows follow operations: what holds in every run of Core and Supervisor together. */
module InstallSafety {
  import opened Collections
  import opened OperationTable
  import opened OperationSafety
  import opened InstallProtocol

  /** The operation as its record shows it, or showed it when the record was cleaned away. */
  ghost function Fate(s: System, id: OperationId): Option<Operation> {
    if id in s.sup.table.operations then Some(s.sup.table.operations[id].operation)
    else if id in s.retired then Some(s.retired[id])
    else None
  }

  ghost predicate HasArtifact(s: System, id: OperationId, artifact: Artifact) {
    Fate(s, id).Some? && Fate(s, id).value.artifact == Some(artifact)
  }

  ghost predicate IsFinalized(s: System, id: OperationId) {
    Fate(s, id).Some? && Fate(s, id).value.state.Finalized?
  }

  ghost predicate IsAborted(s: System, id: OperationId) {
    Fate(s, id).Some? && Fate(s, id).value.state.Aborted? && Fate(s, id).value.artifact.Some?
  }

  // ----- the invariant -----

  /** What a thread that read `seen` may still rely on. */
  ghost predicate StillTrue(s: System, id: OperationId, seen: Operation) {
    && Fate(s, id).Some?
    && (seen.artifact.Some? ==> HasArtifact(s, id, seen.artifact.value))
    && (seen.state.Finalized? ==> IsFinalized(s, id))
  }

  /** A row that names an operation describes exactly what that operation built. */
  ghost predicate RowOk(s: System, row: Row) {
    row.operationId.Some? ==>
      exists artifact :: HasArtifact(s, row.operationId.value, artifact) && MatchesRow(artifact, row)
  }

  ghost predicate TaskOk(s: System, task: Task) {
    match task
    case CallBegin(plugin, id, _) =>
      id in s.used && Fate(s, id).None? && (forall p :: (p, id) !in s.sent)
    case Wait(_, id, _, seen) => StillTrue(s, id, seen)
    case InsertRow(_, id, staged, artifact) => HasArtifact(s, id, artifact) && MatchesStaged(artifact, staged)
    case CompleteRow(_, id) => IsFinalized(s, id)
    case CallAbort(_, id, rollback) => rollback ==> exists artifact :: HasArtifact(s, id, artifact)
    case RollbackRow(_, id) => IsAborted(s, id)
    case CallStatus(_, _, record) => record.Some? ==> RowOk(s, record.value)
    case Decide(_, id, record, seen) => StillTrue(s, id, seen) && (record.Some? ==> RowOk(s, record.value))
    case _ => true
  }

  ghost predicate SupervisorOk(s: System) {
    && Inv(s.sup)
    && (forall id :: id in s.retired ==>
          id !in s.sup.table.operations && RecordOk(id, s.retired[id]) && s.retired[id].state.IsTerminal())
  }

  ghost predicate Begins(s: System, k: nat) {
    k in s.tasks && s.tasks[k].CallBegin?
  }

  /** Each operation ID is begun by one thread, and its request is executed at most once. */
  ghost predicate RequestsOk(s: System) {
    && (forall p, id :: (p, id) in s.sent ==> id in s.used && Fate(s, id).None?)
    && (forall p, q, id :: (p, id) in s.sent && (q, id) in s.sent ==> p == q)
    && (forall id :: Fate(s, id).Some? ==> id in s.used)
    && (forall k, l :: Begins(s, k) && Begins(s, l) && s.tasks[k].id == s.tasks[l].id ==> k == l)
  }

  /** The row of a completed operation is what the operation built. */
  ghost predicate CompletedOk(s: System, id: OperationId, row: Row) {
    IsFinalized(s, id) && exists artifact :: HasArtifact(s, id, artifact) && MatchesRow(artifact, row)
  }

  ghost predicate HistoryOk(s: System) {
    && (forall id :: id in s.completed ==> CompletedOk(s, id, s.completed[id]))
    && (forall id :: id in s.rolledBack ==> IsAborted(s, id))
  }

  ghost predicate Safe(s: System) {
    && SupervisorOk(s)
    && RequestsOk(s)
    && HistoryOk(s)
    && (forall p :: p in s.rows ==> RowOk(s, s.rows[p]))
    && (forall k :: k in s.tasks ==> TaskOk(s, s.tasks[k]))
  }

  // ----- facts about an operation that no later step can take back -----

  /** The operation has not been forgotten, keeps its artifact, and keeps a final state. */
  ghost predicate FateEndures(s: System, s': System, id: OperationId) {
    Fate(s, id).Some? ==>
      && Fate(s', id).Some?
      && (Fate(s, id).value.artifact.Some? ==> Fate(s', id).value.artifact == Fate(s, id).value.artifact)
      && (IsFinalized(s, id) ==> IsFinalized(s', id))
      && (IsAborted(s, id) ==> IsAborted(s', id))
  }

  ghost predicate Endures(s: System, s': System) {
    forall id :: FateEndures(s, s', id)
  }

  ghost function Remembered(s: System, e: Event): map<OperationId, Operation> {
    if e.Reopen?
    then s.retired + map id | id in e.expired && id in s.sup.table.operations :: s.sup.table.operations[id].operation
    else s.retired
  }

  lemma StepEndures(s: System, e: Event, s': System, id: OperationId)
    requires SupervisorOk(s) && Step(s.sup, e, s'.sup) && s'.retired == Remembered(s, e) && Inv(s'.sup)
    requires e.BeginCall? ==> e.id !in s.retired
    ensures FateEndures(s, s', id)
    ensures id in s'.retired ==>
              id !in s'.sup.table.operations && RecordOk(id, s'.retired[id]) && s'.retired[id].state.IsTerminal()
    ensures Fate(s, id).None? && Fate(s', id).Some? ==> e.BeginCall? && e.id == id
  {
    StepDomain(s.sup, e, s'.sup, id);
    if id in s.sup.table.operations && id in s'.sup.table.operations {
      StepEvolves(s.sup, e, s'.sup, id);
      assert RecordOk(id, s'.sup.table.operations[id].operation);
    }
  }

  lemma MoveEndures(s: System, e: Event, s': System)
    requires SupervisorOk(s) && Step(s.sup, e, s'.sup) && s'.retired == Remembered(s, e)
    requires e.BeginCall? ==> e.id !in s.retired
    ensures SupervisorOk(s') && Endures(s, s')
    ensures forall id :: Fate(s, id).None? && Fate(s', id).Some? ==> e.BeginCall? && e.id == id
  {
    StepInv(s.sup, e, s'.sup);
    forall id
      ensures FateEndures(s, s', id)
      ensures id in s'.retired ==>
                id !in s'.sup.table.operations && RecordOk(id, s'.retired[id]) && s'.retired[id].state.IsTerminal()
      ensures Fate(s, id).None? && Fate(s', id).Some? ==> e.BeginCall? && e.id == id
    {
      StepEndures(s, e, s', id);
    }
  }

  lemma RowEndures(s: System, s': System, row: Row)
    requires Endures(s, s') && RowOk(s, row)
    ensures RowOk(s', row)
  {
    if row.operationId.Some? {
      var artifact :| HasArtifact(s, row.operationId.value, artifact) && MatchesRow(artifact, row);
      assert FateEndures(s, s', row.operationId.value);
      assert HasArtifact(s', row.operationId.value, artifact);
    }
  }

  lemma HistoryEndures(s: System, s': System)
    requires Endures(s, s') && HistoryOk(s) && s'.completed == s.completed && s'.rolledBack == s.rolledBack
    ensures HistoryOk(s')
  {
    forall id | id in s.completed ensures CompletedOk(s', id, s.completed[id]) {
      assert FateEndures(s, s', id);
      var artifact :| HasArtifact(s, id, artifact) && MatchesRow(artifact, s.completed[id]);
      assert HasArtifact(s', id, artifact);
    }
    forall id | id in s.rolledBack ensures IsAborted(s', id) {
      assert FateEndures(s, s', id);
    }
  }

  lemma TaskEndures(s: System, s': System, task: Task)
    requires Endures(s, s') && TaskOk(s, task) && !task.CallBegin?
    ensures TaskOk(s', task)
  {
    assert FateEndures(s, s', task.id);
    match task
    case CallAbort(_, id, rollback) =>
      if rollback {
        var artifact :| HasArtifact(s, id, artifact);
        assert HasArtifact(s', id, artifact);
      }
    case CallStatus(_, _, record) => if record.Some? { RowEndures(s, s', record.value); }
    case Decide(_, _, record, _) => if record.Some? { RowEndures(s, s', record.value); }
    case _ =>
  }

  lemma BeginEndures(s: System, s': System, task: Task)
    requires TaskOk(s, task) && task.CallBegin?
    requires s.used <= s'.used && s'.sent <= s.sent && Fate(s', task.id).None?
    ensures TaskOk(s', task)
  {}

  // ----- every move keeps the system safe -----

  /** Everything but the mover's own thread and the begin requests carries over. */
  lemma Carry(s: System, s': System)
    requires Safe(s) && Endures(s, s')
    ensures forall p :: p in s.rows ==> RowOk(s', s.rows[p])
    ensures forall k :: k in s.tasks && !s.tasks[k].CallBegin? ==> TaskOk(s', s.tasks[k])
  {
    forall p | p in s.rows ensures RowOk(s', s.rows[p]) { RowEndures(s, s', s.rows[p]); }
    forall k | k in s.tasks && !s.tasks[k].CallBegin? ensures TaskOk(s', s.tasks[k]) {
      TaskEndures(s, s', s.tasks[k]);
    }
  }

  lemma SupervisorMoveEndures(s: System, e: Event, s': System)
    requires Safe(s) && SupervisorStep(s, e, s')
    ensures SupervisorOk(s') && Endures(s, s')
    ensures forall id :: Fate(s, id).None? && Fate(s', id).Some? ==> e.BeginCall? && e.id == id
  {
    if e.BeginCall? { assert Fate(s, e.id).None?; }
    MoveEndures(s, e, s');
  }

  lemma SupervisorStepRequests(s: System, e: Event, s': System)
    requires RequestsOk(s) && SupervisorStep(s, e, s') && Endures(s, s')
    requires forall id :: Fate(s, id).None? && Fate(s', id).Some? ==> e.BeginCall? && e.id == id
    ensures RequestsOk(s')
  {
    forall id | Fate(s', id).Some? ensures id in s'.used {
      assert Fate(s, id).Some? || (e.plugin, e.id) in s.sent;
    }
    forall k, l | Begins(s', k) && Begins(s', l) && s'.tasks[k].id == s'.tasks[l].id ensures k == l {
      assert Begins(s, k) && Begins(s, l);
    }
  }

  lemma SupervisorStepBegins(s: System, e: Event, s': System, k: nat)
    requires Safe(s) && SupervisorStep(s, e, s') && Begins(s, k)
    requires forall id :: Fate(s, id).None? && Fate(s', id).Some? ==> e.BeginCall? && e.id == id
    ensures TaskOk(s', s.tasks[k])
  {
    assert TaskOk(s, s.tasks[k]);
    if e.BeginCall? { assert (e.plugin, e.id) in s.sent; }
    BeginEndures(s, s', s.tasks[k]);
  }

  lemma SupervisorStepSafe(s: System, e: Event, s': System)
    requires Safe(s) && SupervisorStep(s, e, s')
    ensures Safe(s') && Endures(s, s')
  {
    SupervisorMoveEndures(s, e, s');
    SupervisorStepRequests(s, e, s');
    Carry(s, s');
    HistoryEndures(s, s');
    forall k | Begins(s, k) ensures TaskOk(s', s.tasks[k]) { SupervisorStepBegins(s, e, s', k); }
  }

  /** `s'` differs from `s` in rows, threads and history only. */
  ghost predicate SameOperations(s: System, s': System) {
    s'.sup == s.sup && s'.retired == s.retired && s'.sent == s.sent && s'.used == s.used
  }

  lemma SameOperationsEndure(s: System, s': System)
    requires SameOperations(s, s')
    ensures Endures(s, s') && Endures(s', s)
    ensures forall task :: TaskOk(s, task) <==> TaskOk(s', task)
    ensures forall row :: RowOk(s, row) <==> RowOk(s', row)
    ensures forall id :: Fate(s', id) == Fate(s, id)
  {
    forall id ensures Fate(s', id) == Fate(s, id) {}
    forall row ensures RowOk(s, row) <==> RowOk(s', row) {
      if RowOk(s, row) { RowEndures(s, s', row); }
      if RowOk(s', row) { RowEndures(s', s, row); }
    }
    forall task ensures TaskOk(s, task) <==> TaskOk(s', task) {
      if !task.CallBegin? && TaskOk(s, task) { TaskEndures(s, s', task); }
      if !task.CallBegin? && TaskOk(s', task) { TaskEndures(s', s, task); }
    }
  }

  lemma BecomeSafe(s: System, k: nat, next: Option<Task>)
    requires Safe(s) && k in s.tasks
    requires next.Some? ==> !next.value.CallBegin? && TaskOk(s, next.value)
    ensures Safe(Become(s, k, next)) && Endures(s, Become(s, k, next))
  {
    var s' := Become(s, k, next);
    SameOperationsEndure(s, s');
    HistoryEndures(s, s');
    forall i, j | Begins(s', i) && Begins(s', j) && s'.tasks[i].id == s'.tasks[j].id ensures i == j {
      assert Begins(s, i) && Begins(s, j);
    }
  }

  lemma WaitSafe(s: System, task: Task, timedOut: bool)
    requires task.Wait? && TaskOk(s, task) && AfterWait(task, timedOut).Some?
    ensures !AfterWait(task, timedOut).value.CallBegin? && TaskOk(s, AfterWait(task, timedOut).value)
  {}

  lemma DecideSafe(s: System, task: Task)
    requires task.Decide? && TaskOk(s, task) && AfterDecide(task).Some?
    ensures !AfterDecide(task).value.CallBegin? && TaskOk(s, AfterDecide(task).value)
  {
    if IsInstallingFor(task.record, task.id) {
      assert RowOk(s, task.record.value);
    }
  }

  lemma StatusSafe(s: System, task: Task)
    requires SupervisorOk(s) && TaskOk(s, task) && (task.Poll? || task.CallStatus? || task.Recover?)
    requires Matching(s.sup.table, task.plugin, task.id).Ok?
    ensures StillTrue(s, task.id, Matching(s.sup.table, task.plugin, task.id).value)
  {}

  lemma FinalizeReply(s: Supervisor, plugin: PluginId, id: OperationId, s': Supervisor)
    requires Step(s, FinalizeCall(plugin, id), s')
    ensures Finalize(s.table, plugin, id).1.Ok? ==>
              id in s'.table.operations && s'.table.operations[id].operation.state.Finalized?
  {}

  lemma AbortReply(s: Supervisor, plugin: PluginId, id: OperationId, s': Supervisor)
    requires Step(s, AbortCall(plugin, id), s')
    ensures Abort(s.table, plugin, id).1.Ok? ==>
              id in s'.table.operations && s'.table.operations[id].operation.state.Aborted?
  {}

  lemma ReplySafe(s: System, task: Task, s1: System)
    requires Safe(s) && TaskOk(s, task) && (task.CallFinalize? || task.FinalizeFor? || task.CallAbort?)
    requires Step(s.sup, CallEvent(task), s1.sup) && Endures(s, s1)
    ensures var next := AfterReply(task, CallReply(s.sup.table, CallEvent(task)));
            next.Some? ==> !next.value.CallBegin? && TaskOk(s1, next.value)
  {
    if task.CallAbort? {
      AbortReply(s.sup, task.plugin, task.id, s1.sup);
      if task.rollback {
        var artifact :| HasArtifact(s, task.id, artifact);
        assert FateEndures(s, s1, task.id);
      }
    } else {
      FinalizeReply(s.sup, task.plugin, task.id, s1.sup);
    }
  }

  lemma CallSafe(s: System, k: nat, s': System)
    requires Safe(s) && k in s.tasks && IsCall(s.tasks[k]) && CallStep(s, k, s')
    ensures Safe(s') && Endures(s, s')
  {
    var task := s.tasks[k];
    var s1 := s.(sup := s'.sup);
    assert TaskOk(s, task);
    SupervisorStepSafe(s, CallEvent(task), s1);
    if !task.CallAcknowledge? { ReplySafe(s, task, s1); }
    BecomeSafe(s1, k, AfterCall(task, CallReply(s.sup.table, CallEvent(task))));
    EnduresTransitive(s, s1, s');
  }

  lemma EnduresTransitive(a: System, b: System, c: System)
    requires Endures(a, b) && Endures(b, c)
    ensures Endures(a, c)
  {
    forall id ensures FateEndures(a, c, id) {
      assert FateEndures(a, b, id) && FateEndures(b, c, id);
    }
  }

  lemma OtherBegins(s: System, k: nat, l: nat)
    requires RequestsOk(s) && Begins(s, k) && Begins(s, l) && k != l
    ensures s.tasks[l].id != s.tasks[k].id
  {}

  lemma BeginAnsweredEndures(s: System, k: nat, s': System)
    requires Safe(s) && Begins(s, k) && Step(s.sup, BeginCall(s.tasks[k].plugin, s.tasks[k].id), s'.sup)
    requires s'.retired == s.retired
    ensures SupervisorOk(s') && Endures(s, s')
    ensures forall id :: Fate(s, id).None? && Fate(s', id).Some? ==> id == s.tasks[k].id
  {
    assert TaskOk(s, s.tasks[k]);
    MoveEndures(s, BeginCall(s.tasks[k].plugin, s.tasks[k].id), s');
  }

  lemma BeginAnsweredOthers(s: System, k: nat, next: Task, s': System, l: nat)
    requires Safe(s) && Begins(s, k) && !next.CallBegin? && s' == Become(s.(sup := s'.sup), k, Some(next))
    requires forall id :: Fate(s, id).None? && Fate(s', id).Some? ==> id == s.tasks[k].id
    requires Begins(s', l)
    ensures l != k && Begins(s, l) && s'.tasks[l] == s.tasks[l] && TaskOk(s', s'.tasks[l])
  {
    OtherBegins(s, k, l);
    assert TaskOk(s, s.tasks[l]);
    BeginEndures(s, s', s.tasks[l]);
  }

  /** The begin call of thread `k` is executed and answered. */
  lemma BeginAnsweredSafe(s: System, k: nat, next: Task, s': System)
    requires Safe(s) && Begins(s, k) && Step(s.sup, BeginCall(s.tasks[k].plugin, s.tasks[k].id), s'.sup)
    requires s' == Become(s.(sup := s'.sup), k, Some(next))
    requires next.Recover? || (next.Wait? && StillTrue(s', next.id, next.seen))
    ensures Safe(s') && Endures(s, s')
  {
    assert TaskOk(s, s.tasks[k]);
    BeginAnsweredEndures(s, k, s');
    Carry(s, s');
    HistoryEndures(s, s');
    forall l | Begins(s', l) ensures l != k && Begins(s, l) && s'.tasks[l] == s.tasks[l] && TaskOk(s', s'.tasks[l]) {
      BeginAnsweredOthers(s, k, next, s', l);
    }
    RequestsKept(s, s', k);
  }

  lemma RequestsKept(s: System, s': System, k: nat)
    requires RequestsOk(s) && Begins(s, k) && TaskOk(s, s.tasks[k]) && s'.used == s.used
    requires forall l :: Begins(s', l) ==> l != k && Begins(s, l) && s'.tasks[l] == s.tasks[l]
    requires s'.sent == s.sent || (s'.sent == s.sent + {(s.tasks[k].plugin, s.tasks[k].id)} && forall id :: Fate(s', id) == Fate(s, id))
    requires forall id :: Fate(s, id).None? && Fate(s', id).Some? ==> id == s.tasks[k].id
    ensures RequestsOk(s')
  {}

  /** The begin call of thread `k` is still under way when the thread stops waiting for it. */
  lemma BeginUnansweredSafe(s: System, k: nat, s': System)
    requires Safe(s) && Begins(s, k)
    requires var CallBegin(plugin, id, staged) := s.tasks[k];
             s' == Become(s.(sent := s.sent + {(plugin, id)}), k, Some(Recover(plugin, id, staged)))
    ensures Safe(s') && Endures(s, s')
  {
    assert TaskOk(s, s.tasks[k]);
    forall id ensures Fate(s', id) == Fate(s, id) && FateEndures(s, s', id) {}
    Carry(s, s');
    HistoryEndures(s, s');
    forall l | Begins(s', l) ensures TaskOk(s', s'.tasks[l]) && Begins(s, l) {
      assert Begins(s, l) && s'.tasks[l] == s.tasks[l];
      OtherBegins(s, k, l);
    }
    RequestsKept(s, s', k);
  }

  lemma BeginSafe(s: System, k: nat, s': System)
    requires Safe(s) && Begins(s, k) && BeginStep(s, k, s')
    ensures Safe(s') && Endures(s, s')
  {
    var CallBegin(plugin, id, staged) := s.tasks[k];
    if s' == Become(s.(sent := s.sent + {(plugin, id)}), k, Some(Recover(plugin, id, staged))) {
      BeginUnansweredSafe(s, k, s');
    } else {
      BeginReply(s.sup, plugin, id, s'.sup);
      BeginAnsweredSafe(s, k, s'.tasks[k], s');
    }
  }

  lemma BeginReply(s: Supervisor, plugin: PluginId, id: OperationId, s': Supervisor)
    requires Step(s, BeginCall(plugin, id), s')
    ensures Begin(s.table, plugin, id).1.Ok? ==>
              id in s'.table.operations && s'.table.operations[id].operation == Begin(s.table, plugin, id).1.value
  {}

  /** A row change that keeps the row truthful keeps the system safe. */
  lemma RowChangeSafe(s: System, s': System)
    requires Safe(s) && SameOperations(s, s') && s'.tasks == s.tasks
    requires forall p :: p in s'.rows ==> RowOk(s, s'.rows[p])
    requires HistoryOk(s')
    ensures Safe(s') && Endures(s, s')
  {
    SameOperationsEndure(s, s');
    forall i, j | Begins(s', i) && Begins(s', j) && s'.tasks[i].id == s'.tasks[j].id ensures i == j {
      assert Begins(s, i) && Begins(s, j);
    }
  }

  lemma InsertHistory(s: System, task: Task, s': System)
    requires Safe(s) && task.InsertRow? && TaskOk(s, task) && RowEffect(s, task, s')
    ensures HistoryOk(s') && forall p :: p in s'.rows ==> RowOk(s, s'.rows[p])
  {
    SameOperationsEndure(s, s');
    HistoryEndures(s, s');
    assert HasArtifact(s, task.id, task.artifact);
    assert MatchesRow(task.artifact, InstallingRow(task.staged, task.id, task.artifact));
  }

  lemma CompletedHasArtifact(s: System, plugin: PluginId, id: OperationId)
    requires Safe(s) && RowBelongsTo(s, plugin, id)
    ensures exists artifact :: HasArtifact(s, id, artifact) && MatchesRow(artifact, s.rows[plugin])
  {
    assert RowOk(s, s.rows[plugin]);
  }

  lemma CompletedKept(s: System, s': System, id: OperationId, row: Row)
    requires CompletedOk(s, id, row) && SameOperations(s, s')
    ensures CompletedOk(s', id, row)
  {
    var artifact :| HasArtifact(s, id, artifact) && MatchesRow(artifact, row);
    assert HasArtifact(s', id, artifact);
  }

  lemma CompleteHistory(s: System, plugin: PluginId, id: OperationId, s': System)
    requires Safe(s) && TaskOk(s, CompleteRow(plugin, id)) && RowEffect(s, CompleteRow(plugin, id), s')
    ensures HistoryOk(s')
  {
    CompletedHasArtifact(s, plugin, id);
    forall i | i in s'.completed ensures CompletedOk(s', i, s'.completed[i]) {
      assert CompletedOk(s, i, s'.completed[i]);
      CompletedKept(s, s', i, s'.completed[i]);
    }
    forall i | i in s.rolledBack ensures IsAborted(s', i) { assert IsAborted(s, i); }
  }

  lemma CompleteRows(s: System, plugin: PluginId, id: OperationId, s': System)
    requires Safe(s) && RowEffect(s, CompleteRow(plugin, id), s')
    ensures forall p :: p in s'.rows ==> RowOk(s, s'.rows[p])
  {
    forall p | p in s'.rows ensures RowOk(s, s'.rows[p]) {
      if p != plugin { assert s'.rows[p] == s.rows[p]; }
    }
  }

  lemma RollbackHistory(s: System, plugin: PluginId, id: OperationId, s': System)
    requires Safe(s) && TaskOk(s, RollbackRow(plugin, id)) && RowEffect(s, RollbackRow(plugin, id), s')
    ensures HistoryOk(s') && forall p :: p in s'.rows ==> RowOk(s, s'.rows[p])
  {
    SameOperationsEndure(s, s');
    HistoryEndures(s, s'.(rolledBack := s.rolledBack));
    assert IsAborted(s', id);
  }

  lemma RowEffectSafe(s: System, task: Task, s': System)
    requires Safe(s) && ChangesRow(task) && TaskOk(s, task) && RowEffect(s, task, s')
    ensures Safe(s') && Endures(s, s') && TaskOk(s', AfterRow(task))
  {
    if task.InsertRow? {
      InsertHistory(s, task, s');
    } else if task.CompleteRow? {
      CompleteHistory(s, task.plugin, task.id, s');
      CompleteRows(s, task.plugin, task.id, s');
    } else {
      RollbackHistory(s, task.plugin, task.id, s');
    }
    RowChangeSafe(s, s');
  }

  lemma ThinkSafe(s: System, task: Task, next: Option<Task>)
    requires Safe(s) && TaskOk(s, task) && MayBecome(s, task, next) && next.Some?
    ensures !next.value.CallBegin? && TaskOk(s, next.value)
  {
    if task.Wait? {
      WaitSafe(s, task, next == AfterWait(task, true));
    } else if task.Decide? {
      DecideSafe(s, task);
    } else if (task.Poll? || task.CallStatus? || task.Recover?) && Matching(s.sup.table, task.plugin, task.id).Ok? {
      StatusSafe(s, task);
    }
  }

  lemma RowStepSafe(s: System, k: nat, s1: System, next: Option<Task>)
    requires Safe(s) && k in s.tasks && ChangesRow(s.tasks[k]) && RowEffect(s, s.tasks[k], s1)
    requires MayFollowRow(s.tasks[k], next)
    ensures Safe(Become(s1, k, next)) && Endures(s, Become(s1, k, next))
  {
    assert TaskOk(s, s.tasks[k]);
    RowEffectSafe(s, s.tasks[k], s1);
    BecomeSafe(s1, k, next);
    EnduresTransitive(s, s1, Become(s1, k, next));
  }

  lemma ThinkStepSafe(s: System, k: nat, next: Option<Task>)
    requires Safe(s) && k in s.tasks && MayBecome(s, s.tasks[k], next)
    ensures Safe(Become(s, k, next)) && Endures(s, Become(s, k, next))
  {
    assert TaskOk(s, s.tasks[k]);
    if next.Some? { ThinkSafe(s, s.tasks[k], next); }
    BecomeSafe(s, k, next);
  }

  lemma TaskStepSafe(s: System, k: nat, s': System)
    requires Safe(s) && TaskStep(s, k, s')
    ensures Safe(s') && Endures(s, s')
  {
    var task := s.tasks[k];
    if next :| MayBecome(s, task, next) && s' == Become(s, k, next) {
      ThinkStepSafe(s, k, next);
    } else if task.CallBegin? {
      BeginSafe(s, k, s');
    } else if IsCall(task) {
      CallSafe(s, k, s');
    } else {
      var s1, next :| RowEffect(s, task, s1) && MayFollowRow(task, next) && s' == Become(s1, k, next);
      RowStepSafe(s, k, s1, next);
    }
  }

  lemma ManageSafe(s: System, m: Move, s': System)
    requires Safe(s) && Next(s, m, s') && (m.Manage? || m.Uninstall?)
    ensures Safe(s') && Endures(s, s')
  {
    SameOperationsEndure(s, s');
    HistoryEndures(s, s');
    forall p | p in s'.rows ensures RowOk(s, s'.rows[p]) { assert RowOk(s, s.rows[p]); }
    RowChangeSafe(s, s');
  }

  /** Threads that cannot begin an operation may come, and all threads may go. */
  lemma ThreadsChangeSafe(s: System, s': System)
    requires Safe(s) && s' == s.(tasks := s'.tasks)
    requires forall k :: k in s'.tasks ==> TaskOk(s, s'.tasks[k])
    requires forall k :: Begins(s', k) ==> Begins(s, k) && s'.tasks[k] == s.tasks[k]
    ensures Safe(s') && Endures(s, s')
  {
    SameOperationsEndure(s, s');
    HistoryEndures(s, s');
  }

  lemma CoreMoveSafe(s: System, m: Move, s': System)
    requires Safe(s) && Next(s, m, s') && (m.StartReconcile? || m.CoreCrash?)
    ensures Safe(s') && Endures(s, s')
  {
    forall k | k in s'.tasks ensures TaskOk(s, s'.tasks[k]) {
      if m.StartReconcile? && k == m.k {
        assert m.plugin in s.rows ==> RowOk(s, s.rows[m.plugin]);
      } else {
        assert k in s.tasks && s'.tasks[k] == s.tasks[k];
      }
    }
    ThreadsChangeSafe(s, s');
  }

  lemma NextSafe(s: System, m: Move, s': System)
    requires Safe(s) && Next(s, m, s')
    ensures Safe(s') && Endures(s, s')
  {
    match m
    case TaskMove(k) => TaskStepSafe(s, k, s');
    case SupervisorMove(e) => SupervisorStepSafe(s, e, s');
    case StartInstall(_, _, _, _) => StartInstallSafe(s, m, s');
    case Manage(_, _) => ManageSafe(s, m, s');
    case Uninstall(_) => ManageSafe(s, m, s');
    case _ => CoreMoveSafe(s, m, s');
  }

  lemma StartInstallSafe(s: System, m: Move, s': System)
    requires Safe(s) && m.StartInstall? && Next(s, m, s')
    ensures Safe(s') && Endures(s, s')
  {
    forall id ensures Fate(s', id) == Fate(s, id) && FateEndures(s, s', id) {}
    Carry(s, s');
    HistoryEndures(s, s');
    forall k | Begins(s', k) ensures TaskOk(s', s'.tasks[k]) && (k == m.k || Begins(s, k)) {
      if k != m.k { BeginEndures(s, s', s.tasks[k]); }
    }
    forall i, j | Begins(s', i) && Begins(s', j) && s'.tasks[i].id == s'.tasks[j].id ensures i == j {
      assert i == m.k || TaskOk(s, s.tasks[i]);
      assert j == m.k || TaskOk(s, s.tasks[j]);
    }
  }

  // ----- whole runs -----

  ghost predicate NextAt(states: seq<System>, moves: seq<Move>, i: int)
    requires 0 <= i < |moves| < |states|
  {
    Next(states[i], moves[i], states[i + 1])
  }

  ghost predicate IsSystemRun(states: seq<System>, moves: seq<Move>) {
    && |states| == |moves| + 1
    && Start(states[0])
    && forall i :: 0 <= i < |moves| ==> NextAt(states, moves, i)
  }

  lemma {:induction false} SystemRunSafe(states: seq<System>, moves: seq<Move>, i: nat)
    requires IsSystemRun(states, moves) && i < |states|
    ensures Safe(states[i])
  {
    if i > 0 {
      SystemRunSafe(states, moves, i - 1);
      assert NextAt(states, moves, i - 1);
      NextSafe(states[i - 1], moves[i - 1], states[i]);
    }
  }

  lemma {:induction false} SystemRunEndures(states: seq<System>, moves: seq<Move>, i: nat, j: nat)
    requires IsSystemRun(states, moves) && i <= j < |states|
    ensures Endures(states[i], states[j])
    decreases j - i
  {
    if i == j {
      forall id ensures FateEndures(states[i], states[j], id) {}
    } else {
      SystemRunEndures(states, moves, i, j - 1);
      SystemRunSafe(states, moves, j - 1);
      assert NextAt(states, moves, j - 1);
      NextSafe(states[j - 1], moves[j - 1], states[j]);
      EnduresTransitive(states[i], states[j - 1], states[j]);
    }
  }

  /** Rows change only by the row statements of threads and by plugin management. */
  lemma RowWriter(s: System, m: Move, s': System)
    requires Next(s, m, s') && s'.rows != s.rows && !m.Manage? && !m.Uninstall?
    ensures m.TaskMove? && m.k in s.tasks && ChangesRow(s.tasks[m.k])
    ensures exists s1 :: RowEffect(s, s.tasks[m.k], s1) && s1.rows == s'.rows
  {
    if m.TaskMove? {
      assert TaskStep(s, m.k, s');
    }
  }

  /** A row statement that releases a row from its operation completes a Finalized one; one that drops it, an Aborted one. */
  lemma RowEffectOutcome(s: System, task: Task, s1: System, p: PluginId)
    requires TaskOk(s, task) && ChangesRow(task) && RowEffect(s, task, s1) && p in s.rows
    ensures p in s1.rows && s.rows[p].operationId.Some? && s1.rows[p].operationId.None? ==> IsFinalized(s, s.rows[p].operationId.value)
    ensures p !in s1.rows ==> s.rows[p].operationId.Some? && IsAborted(s, s.rows[p].operationId.value)
  {
  }

  lemma RowStepOutcome(s: System, m: Move, s': System, p: PluginId)
    requires Safe(s) && Next(s, m, s') && p in s.rows && s'.rows != s.rows && !m.Manage? && !m.Uninstall?
    ensures p in s'.rows && s.rows[p].operationId.Some? && s'.rows[p].operationId.None? ==> IsFinalized(s, s.rows[p].operationId.value)
    ensures p !in s'.rows ==> s.rows[p].operationId.Some? && IsAborted(s, s.rows[p].operationId.value)
  {
    RowWriter(s, m, s');
    var task := s.tasks[m.k];
    var s1 :| RowEffect(s, task, s1) && s1.rows == s'.rows;
    assert TaskOk(s, task);
    RowEffectOutcome(s, task, s1, p);
  }

  lemma CompletionStep(s: System, m: Move, s': System, p: PluginId)
    requires Safe(s) && Next(s, m, s')
    requires p in s.rows && s.rows[p].operationId.Some? && p in s'.rows && s'.rows[p].operationId.None?
    ensures IsFinalized(s, s.rows[p].operationId.value)
  {
    if !m.Manage? && !m.Uninstall? { RowStepOutcome(s, m, s', p); }
  }

  lemma RemovalStep(s: System, m: Move, s': System, p: PluginId)
    requires Safe(s) && Next(s, m, s')
    requires p in s.rows && p !in s'.rows && !m.Uninstall?
    ensures s.rows[p].operationId.Some? && IsAborted(s, s.rows[p].operationId.value)
  {
    if !m.Manage? { RowStepOutcome(s, m, s', p); }
  }

  /**
   A row that turns Installed was installed by an operation that is Finalized, built exactly
   what the row describes, and never becomes Failed or Aborted afterwards.
   */
  lemma CompletedRowsAreFinalized(states: seq<System>, moves: seq<Move>, i: nat, j: nat, p: PluginId)
    requires IsSystemRun(states, moves) && i < |moves| && i <= j < |states|
    requires p in states[i].rows && states[i].rows[p].operationId.Some?
    requires p in states[i + 1].rows && states[i + 1].rows[p].operationId.None?
    ensures var id := states[i].rows[p].operationId.value;
            && IsFinalized(states[j], id)
            && exists artifact :: HasArtifact(states[j], id, artifact) && MatchesRow(artifact, states[i].rows[p])
  {
    var id := states[i].rows[p].operationId.value;
    SystemRunSafe(states, moves, i);
    assert NextAt(states, moves, i);
    CompletionStep(states[i], moves[i], states[i + 1], p);
    SystemRunEndures(states, moves, i, j);
    assert FateEndures(states[i], states[j], id);
    assert RowOk(states[i], states[i].rows[p]);
    RowEndures(states[i], states[j], states[i].rows[p]);
  }

  /** A row that disappears without being uninstalled belonged to an operation that is Aborted, and stays so. */
  lemma RolledBackRowsAreAborted(states: seq<System>, moves: seq<Move>, i: nat, j: nat, p: PluginId)
    requires IsSystemRun(states, moves) && i < |moves| && i <= j < |states|
    requires p in states[i].rows && p !in states[i + 1].rows && !moves[i].Uninstall?
    ensures states[i].rows[p].operationId.Some? && IsAborted(states[j], states[i].rows[p].operationId.value)
  {
    SystemRunSafe(states, moves, i);
    assert NextAt(states, moves, i);
    RemovalStep(states[i], moves[i], states[i + 1], p);
    SystemRunEndures(states, moves, i, j);
    assert FateEndures(states[i], states[j], states[i].rows[p].operationId.value);
  }

  /** No operation is both completed and rolled back, in whatever order. */
  lemma NeverBothOutcomes(states: seq<System>, moves: seq<Move>, i: nat)
    requires IsSystemRun(states, moves) && i < |states|
    ensures states[i].completed.Keys !! states[i].rolledBack
  {
    SystemRunSafe(states, moves, i);
  }
}
