/**
 Core and Supervisor together. Core threads run `install` and `reconcile_operation` one call
 at a time; a call may be answered, lost on the way, or executed by the Supervisor long after
 the caller has given up. Either side may crash at any moment.
 */
module InstallProtocol {
  import opened Collections
  import opened OperationTable
  import opened OperationSafety

  datatype RowStatus = Installing | Installed | Managed

  /** The plugin row: what reconciliation compares, and the operation that may still change it. */
  datatype Row = Row(status: RowStatus, operationId: Option<OperationId>,
                     repositoryId: string, commitSha: string, sourceHash: string, manifestHash: string,
                     imageId: Option<string>)

  datatype Staged = Staged(repositoryId: string, commitSha: string, sourceHash: string, manifestHash: string)

  predicate MatchesStaged(artifact: Artifact, staged: Staged) {
    && artifact.repositoryId == staged.repositoryId
    && artifact.commitSha == staged.commitSha
    && artifact.sourceHash == staged.sourceHash
    && artifact.manifestHash == staged.manifestHash
  }

  predicate MatchesRow(artifact: Artifact, row: Row) {
    && artifact.repositoryId == row.repositoryId
    && artifact.commitSha == row.commitSha
    && artifact.sourceHash == row.sourceHash
    && artifact.manifestHash == row.manifestHash
    && row.imageId == Some(artifact.imageId)
  }

  /** The row an install inserts: staged identity, built image. */
  function InstallingRow(staged: Staged, id: OperationId, artifact: Artifact): Row {
    Row(Installing, Some(id), staged.repositoryId, staged.commitSha, staged.sourceHash, staged.manifestHash,
        Some(artifact.imageId))
  }

  /** Where a Core thread stands; a finished thread is gone. */
  datatype Task =
    | CallBegin(plugin: PluginId, id: OperationId, staged: Staged)
    | Recover(plugin: PluginId, id: OperationId, staged: Staged)
    | Wait(plugin: PluginId, id: OperationId, staged: Staged, seen: Operation)
    | Poll(plugin: PluginId, id: OperationId, staged: Staged)
    | InsertRow(plugin: PluginId, id: OperationId, staged: Staged, artifact: Artifact)
    | CallFinalize(plugin: PluginId, id: OperationId, staged: Staged)
    | CompleteRow(plugin: PluginId, id: OperationId)
    | CallAcknowledge(plugin: PluginId, id: OperationId)
    | CallAbort(plugin: PluginId, id: OperationId, rollback: bool)
    | RollbackRow(plugin: PluginId, id: OperationId)
    | CallStatus(plugin: PluginId, id: OperationId, record: Option<Row>)
    | Decide(plugin: PluginId, id: OperationId, record: Option<Row>, seen: Operation)
    | FinalizeFor(plugin: PluginId, id: OperationId, row: Row)

  /**
   `sent` holds the begin requests that nobody is waiting for any more and that have not been
   executed; `acks` holds the acknowledgements that some thread has come to send, which the Supervisor
   may execute late. `used`, `retired`, `completed` and `rolledBack` are history: the code never reads them.
   */
  datatype System = System(sup: Supervisor, rows: map<PluginId, Row>, tasks: map<nat, Task>,
                           sent: set<(PluginId, OperationId)>, acks: set<(PluginId, OperationId)>,
                           used: set<OperationId>, retired: map<OperationId, Operation>,
                           completed: map<OperationId, Row>, rolledBack: set<OperationId>)

  ghost predicate Start(s: System) {
    && Init(s.sup) && s.rows == map[] && s.tasks == map[] && s.sent == {} && s.acks == {} && s.used == {}
    && s.retired == map[] && s.completed == map[] && s.rolledBack == {}
  }

  // ----- Core's decisions -----

  predicate SameOperation(operation: Operation, plugin: PluginId, id: OperationId) {
    operation.pluginId == plugin && operation.operationId == id
  }

  predicate IsInstallingFor(record: Option<Row>, id: OperationId) {
    record.Some? && record.value.status.Installing? && record.value.operationId == Some(id)
  }

  predicate IsInstalledAs(record: Option<Row>, seen: Operation) {
    && record.Some? && record.value.status.Installed? && record.value.operationId.None?
    && seen.artifact.Some? && MatchesRow(seen.artifact.value, record.value)
  }

  /** What `wait_until_built` does with one status; None ends the install. */
  function AfterWait(task: Task, timedOut: bool): Option<Task>
    requires task.Wait?
  {
    var Wait(plugin, id, staged, seen) := task;
    if !SameOperation(seen, plugin, id) then None
    else match seen.state
      case Built =>
        if seen.artifact.Some? && MatchesStaged(seen.artifact.value, staged)
        then Some(InsertRow(plugin, id, staged, seen.artifact.value))
        else Some(CallAbort(plugin, id, false))
      case Failed => Some(CallAbort(plugin, id, false))
      case Aborted => Some(CallAbort(plugin, id, false))
      case Finalized => None
      case _ => Some(if timedOut then CallAbort(plugin, id, false) else Poll(plugin, id, staged))
  }

  /** What `reconcile_operation` does with one status; None leaves the operation for the next start. */
  function AfterDecide(task: Task): Option<Task>
    requires task.Decide?
  {
    var Decide(plugin, id, record, seen) := task;
    var installing := IsInstallingFor(record, id);
    match seen.state
    case Built =>
      if !installing then Some(CallAbort(plugin, id, false))
      else if seen.artifact.Some? && MatchesRow(seen.artifact.value, record.value)
      then Some(FinalizeFor(plugin, id, record.value)) else None
    case Finalized =>
      if installing then
        if seen.artifact.Some? && MatchesRow(seen.artifact.value, record.value)
        then Some(CompleteRow(plugin, id)) else None
      else if IsInstalledAs(record, seen) then Some(CallAcknowledge(plugin, id))
      else Some(CallAbort(plugin, id, false))
    case Failed => Some(CallAbort(plugin, id, installing))
    case Aborted => Some(CallAbort(plugin, id, installing))
    case _ => if installing then None else Some(CallAbort(plugin, id, false))
  }

  /** What a thread does with the answer to its call. */
  function AfterReply(task: Task, r: Reply): Option<Task>
    requires task.Poll? || task.CallFinalize? || task.FinalizeFor? || task.CallAbort? || task.CallStatus?
  {
    if r.Err? then None
    else
      var operation := r.value;
      match task
      case Poll(plugin, id, staged) => Some(Wait(plugin, id, staged, operation))
      case CallStatus(plugin, id, record) =>
        if SameOperation(operation, plugin, id) then Some(Decide(plugin, id, record, operation)) else None
      case CallFinalize(plugin, id, staged) =>
        if operation.state.Finalized? && SameOperation(operation, plugin, id)
           && operation.artifact.Some? && MatchesStaged(operation.artifact.value, staged)
        then Some(CompleteRow(plugin, id)) else None
      case FinalizeFor(plugin, id, row) =>
        if operation.state.Finalized? && SameOperation(operation, plugin, id)
           && operation.artifact.Some? && MatchesRow(operation.artifact.value, row)
        then Some(CompleteRow(plugin, id)) else None
      case CallAbort(plugin, id, rollback) =>
        if operation.state.Aborted? && SameOperation(operation, plugin, id)
        then Some(if rollback then RollbackRow(plugin, id) else CallAcknowledge(plugin, id)) else None
  }

  // ----- steps -----

  function Become(s: System, k: nat, next: Option<Task>): System {
    s.(tasks := if next.Some? then s.tasks[k := next.value] else s.tasks - {k},
       acks := if next.Some? && next.value.CallAcknowledge? then s.acks + {(next.value.plugin, next.value.id)} else s.acks)
  }

  ghost predicate RowBelongsTo(s: System, plugin: PluginId, id: OperationId) {
    plugin in s.rows && s.rows[plugin].operationId == Some(id)
  }

  predicate IsCall(task: Task) {
    task.CallFinalize? || task.FinalizeFor? || task.CallAbort? || task.CallAcknowledge?
  }

  predicate ChangesRow(task: Task) {
    task.InsertRow? || task.CompleteRow? || task.RollbackRow?
  }

  function CallEvent(task: Task): Event
    requires IsCall(task)
  {
    match task
    case CallAbort(plugin, id, _) => AbortCall(plugin, id)
    case CallAcknowledge(plugin, id) => AcknowledgeCall(plugin, id)
    case CallFinalize(plugin, id, _) => FinalizeCall(plugin, id)
    case FinalizeFor(plugin, id, _) => FinalizeCall(plugin, id)
  }

  function CallReply(t: Table, e: Event): Reply
    requires e.FinalizeCall? || e.AbortCall? || e.AcknowledgeCall?
  {
    match e
    case FinalizeCall(plugin, id) => Finalize(t, plugin, id).1
    case AbortCall(plugin, id) => Abort(t, plugin, id).1
    case AcknowledgeCall(plugin, id) => Acknowledge(t, plugin, id).1
  }

  /** Reading, deciding, waiting and giving up: the thread alone moves. */
  ghost predicate MayBecome(s: System, task: Task, next: Option<Task>) {
    match task
    case CallBegin(_, _, _) => false
    case Recover(plugin, id, staged) =>
      || next == Some(task)
      || next == Some(CallAbort(plugin, id, false))
      || (&& s.sup.up && Matching(s.sup.table, plugin, id).Ok?
          && next == Some(Wait(plugin, id, staged, Matching(s.sup.table, plugin, id).value)))
    case Wait(_, _, _, _) => next == AfterWait(task, true) || next == AfterWait(task, false)
    case Decide(_, _, _, _) => next == AfterDecide(task)
    case Poll(plugin, id, _) =>
      next == None || (s.sup.up && next == AfterReply(task, Matching(s.sup.table, plugin, id)))
    case CallStatus(plugin, id, _) =>
      next == None || (s.sup.up && next == AfterReply(task, Matching(s.sup.table, plugin, id)))
    case InsertRow(plugin, id, _, _) => next == Some(CallAbort(plugin, id, false))
    case _ => next == None
  }

  /** The row statement of a thread takes effect; each is keyed by plugin and operation. */
  ghost predicate RowEffect(s: System, task: Task, s': System)
    requires ChangesRow(task)
  {
    match task
    case InsertRow(plugin, id, staged, artifact) =>
      plugin !in s.rows && s' == s.(rows := s.rows[plugin := InstallingRow(staged, id, artifact)])
    case CompleteRow(plugin, id) =>
      && RowBelongsTo(s, plugin, id)
      && s' == s.(rows := s.rows[plugin := s.rows[plugin].(status := Installed, operationId := None)],
                  completed := s.completed[id := s.rows[plugin]])
    case RollbackRow(plugin, id) =>
      && RowBelongsTo(s, plugin, id)
      && s' == s.(rows := s.rows - {plugin}, rolledBack := s.rolledBack + {id})
  }

  function AfterRow(task: Task): Task
    requires ChangesRow(task)
  {
    if task.InsertRow? then CallFinalize(task.plugin, task.id, task.staged) else CallAcknowledge(task.plugin, task.id)
  }

  /**
   What a thread does after its row statement. It may also end there, on a later error; and an
   insert that took effect may still be reported as an error, upon which the install aborts.
   */
  ghost predicate MayFollowRow(task: Task, next: Option<Task>)
    requires ChangesRow(task)
  {
    || next == Some(AfterRow(task))
    || next == None
    || (task.InsertRow? && next == Some(CallAbort(task.plugin, task.id, false)))
  }

  function AfterCall(task: Task, r: Reply): Option<Task>
    requires IsCall(task)
  {
    if task.CallAcknowledge? then None else AfterReply(task, r)
  }

  /** A begin call is answered, or left under way by a thread that stops waiting for it. */
  ghost predicate BeginStep(s: System, k: nat, s': System)
    requires k in s.tasks && s.tasks[k].CallBegin?
  {
    var CallBegin(plugin, id, staged) := s.tasks[k];
    || (&& Step(s.sup, BeginCall(plugin, id), s'.sup)
        && var r := Begin(s.sup.table, plugin, id).1;
           s' == Become(s.(sup := s'.sup), k,
                        Some(if r.Ok? then Wait(plugin, id, staged, r.value) else Recover(plugin, id, staged))))
    || s' == Become(s.(sent := s.sent + {(plugin, id)}), k, Some(Recover(plugin, id, staged)))
  }

  ghost predicate CallStep(s: System, k: nat, s': System)
    requires k in s.tasks && IsCall(s.tasks[k])
  {
    && Step(s.sup, CallEvent(s.tasks[k]), s'.sup)
    && s' == Become(s.(sup := s'.sup), k, AfterCall(s.tasks[k], CallReply(s.sup.table, CallEvent(s.tasks[k]))))
  }

  /** Thread `k` moves. */
  ghost predicate TaskStep(s: System, k: nat, s': System) {
    && k in s.tasks
    && var task := s.tasks[k];
       || (exists next :: MayBecome(s, task, next) && s' == Become(s, k, next))
       || (task.CallBegin? && BeginStep(s, k, s'))
       || (IsCall(task) && CallStep(s, k, s'))
       || (ChangesRow(task) && exists s1, next :: RowEffect(s, task, s1) && MayFollowRow(task, next) && s' == Become(s1, k, next))
  }

  /** The Supervisor moves by itself, restarts, or executes a request nobody waits for. */
  ghost predicate SupervisorStep(s: System, e: Event, s': System) {
    && Step(s.sup, e, s'.sup)
    && (e.BeginCall? ==> (e.plugin, e.id) in s.sent)
    && s' == s.(sup := s'.sup,
                sent := if e.BeginCall? then s.sent - {(e.plugin, e.id)} else s.sent,
                retired := if e.Reopen?
                           then s.retired + map id | id in e.expired && id in s.sup.table.operations :: s.sup.table.operations[id].operation
                           else s.retired)
  }

  datatype Move =
    | StartInstall(k: nat, plugin: PluginId, id: OperationId, staged: Staged)
    | StartReconcile(k: nat, plugin: PluginId, id: OperationId)
    | TaskMove(k: nat)
    | SupervisorMove(e: Event)
    | CoreCrash
    | Manage(plugin: PluginId, status: RowStatus)
    | Uninstall(plugin: PluginId)

  ghost predicate Next(s: System, m: Move, s': System) {
    match m
    case StartInstall(k, plugin, id, staged) =>
      && k !in s.tasks && plugin !in s.rows && id !in s.used
      && s' == s.(tasks := s.tasks[k := CallBegin(plugin, id, staged)], used := s.used + {id})
    case StartReconcile(k, plugin, id) =>
      && k !in s.tasks
      && var record := if plugin in s.rows then Some(s.rows[plugin]) else None;
         s' == s.(tasks := s.tasks[k := CallStatus(plugin, id, record)])
    case TaskMove(k) => TaskStep(s, k, s')
    case SupervisorMove(e) => SupervisorStep(s, e, s') && (e.AcknowledgeCall? ==> (e.plugin, e.id) in s.acks)
    case CoreCrash => s' == s.(tasks := map[])
    case Manage(plugin, status) =>
      plugin in s.rows && s' == s.(rows := s.rows[plugin := s.rows[plugin].(status := status)])
    case Uninstall(plugin) => s' == s.(rows := s.rows - {plugin})
  }
}
