/**
 The Supervisor's table of install operations: the durable records, the rules by which a
 record may change, and the steps a running or restarting Supervisor takes on them.

 A record write either succeeds or the process stops, so one table stands for both the
 in-memory map and the files below `operations/`.
 */
module OperationTable {
  import opened Collections

  type PluginId = string
  type OperationId = nat

  const MAX_UNACKNOWLEDGED: nat := 256
  const MAX_LISTED: nat := 256
  const U64_MAX: nat := 0xFFFF_FFFF_FFFF_FFFF
  const RESTART_ERROR_CODE := "SUPERVISOR_RESTARTED"

  datatype OperationState = Accepted | Building | Built | Finalized | Failed | Aborted {
    predicate IsTerminal() {
      Finalized? || Failed? || Aborted?
    }
  }

  datatype Artifact = Artifact(imageId: string, repositoryId: string, commitSha: string,
                               sourceHash: string, manifestHash: string)

  datatype Operation = Operation(operationId: OperationId, pluginId: PluginId, state: OperationState,
                                 artifact: Option<Artifact>, errorCode: Option<string>, acknowledged: bool)

  datatype StoredOperation = StoredOperation(installationId: string, operation: Operation, sequence: nat)

  datatype OperationError =
    | OperationIdMismatch | BuildBusy | OperationCapacityReached | NotFound
    | InvalidTransition | NotTerminal | InstalledAttestationMismatch | AdapterFailed

  type Reply = Result<Operation, OperationError>

  datatype Table = Table(installationId: string, operations: map<OperationId, StoredOperation>, nextSequence: nat)

  // ----- reading -----

  function Matching(t: Table, plugin: PluginId, id: OperationId): Reply {
    if id !in t.operations then Err(NotFound)
    else if t.operations[id].operation.pluginId != plugin then Err(NotFound)
    else Ok(t.operations[id].operation)
  }

  ghost function NonTerminal(t: Table): set<OperationId> {
    set id | id in t.operations && !t.operations[id].operation.state.IsTerminal()
  }

  function Unacknowledged(t: Table): set<OperationId> {
    set id | id in t.operations && !t.operations[id].operation.acknowledged
  }

  // ----- writing -----

  function Write(t: Table, id: OperationId, operation: Operation): Table
    requires id in t.operations
  {
    t.(operations := t.operations[id := t.operations[id].(operation := operation)])
  }

  function SaturatingSucc(n: nat): nat {
    if n < U64_MAX then n + 1 else U64_MAX
  }

  predicate IsBusy(t: Table) {
    exists id :: id in t.operations && !t.operations[id].operation.state.IsTerminal()
  }

  /** A new record, or the existing one, or the reason for refusing. */
  function Begin(t: Table, plugin: PluginId, id: OperationId): (Table, Reply) {
    if id in t.operations then
      (t, if t.operations[id].operation.pluginId != plugin then Err(OperationIdMismatch)
          else Ok(t.operations[id].operation))
    else if IsBusy(t) then (t, Err(BuildBusy))
    else if |Unacknowledged(t)| >= MAX_UNACKNOWLEDGED then (t, Err(OperationCapacityReached))
    else
      var operation := Operation(id, plugin, Accepted, None, None, false);
      (t.(operations := t.operations[id := StoredOperation(t.installationId, operation, t.nextSequence)],
          nextSequence := SaturatingSucc(t.nextSequence)),
       Ok(operation))
  }

  /** The guarded move: nothing leaves a terminal state this way. */
  function SetState(t: Table, plugin: PluginId, id: OperationId, state: OperationState, errorCode: Option<string>)
    : (Table, Reply)
  {
    match Matching(t, plugin, id)
    case Err(e) => (t, Err(e))
    case Ok(operation) =>
      if operation.state.IsTerminal() && operation.state != state then (t, Err(InvalidTransition))
      else
        var updated := operation.(state := state, errorCode := errorCode);
        (Write(t, id, updated), Ok(updated))
  }

  function SetBuilt(t: Table, plugin: PluginId, id: OperationId, artifact: Artifact): (Table, Reply) {
    match Matching(t, plugin, id)
    case Err(e) => (t, Err(e))
    case Ok(operation) =>
      if operation.state != Building then (t, Err(InvalidTransition))
      else
        var updated := operation.(state := Built, artifact := Some(artifact), errorCode := None);
        (Write(t, id, updated), Ok(updated))
  }

  /** The unguarded move: a failing build overwrites whatever state it finds. */
  function SetFailed(t: Table, plugin: PluginId, id: OperationId, errorCode: string): (Table, Reply) {
    match Matching(t, plugin, id)
    case Err(e) => (t, Err(e))
    case Ok(operation) =>
      var updated := operation.(state := Failed, errorCode := Some(errorCode));
      (Write(t, id, updated), Ok(updated))
  }

  function Acknowledge(t: Table, plugin: PluginId, id: OperationId): (Table, Reply) {
    match Matching(t, plugin, id)
    case Err(e) => (t, Err(e))
    case Ok(operation) =>
      if !operation.state.IsTerminal() then (t, Err(NotTerminal))
      else
        var updated := operation.(acknowledged := true);
        (Write(t, id, updated), Ok(updated))
  }

  /** What finalize does to the record once the directories are in place. */
  function Finalize(t: Table, plugin: PluginId, id: OperationId): (Table, Reply) {
    match Matching(t, plugin, id)
    case Err(e) => (t, Err(e))
    case Ok(operation) =>
      if operation.artifact.None? then (t, Err(InvalidTransition))
      else if operation.state.Finalized? then (t, Ok(operation))
      else if !operation.state.Built? then (t, Err(InvalidTransition))
      else SetState(t, plugin, id, Finalized, None)
  }

  /** What abort does to the record; a record that is already Aborted is returned as it is. */
  function Abort(t: Table, plugin: PluginId, id: OperationId): (Table, Reply) {
    match Matching(t, plugin, id)
    case Err(e) => (t, Err(e))
    case Ok(operation) =>
      if operation.state.Aborted? then (t, Ok(operation))
      else SetState(t, plugin, id, Aborted, operation.errorCode)
  }

  /** The sequence number a restarted Supervisor continues from. */
  ghost predicate IsResumePoint(operations: map<OperationId, StoredOperation>, next: nat) {
    && (forall id :: id in operations ==> SaturatingSucc(operations[id].sequence) <= next)
    && (next == 0 || exists id :: id in operations && next == SaturatingSucc(operations[id].sequence))
  }

  // ----- the Supervisor as a transition system -----

  /** How far the background build of one operation has come; a build that has reported is gone. */
  datatype BuildPhase = Spawned | Running | Writing(artifact: Artifact)

  datatype Build = Build(plugin: PluginId, phase: BuildPhase)

  /** `order` lists the retained operations, oldest first; the code never reads it. */
  datatype Supervisor = Supervisor(table: Table, builds: map<OperationId, Build>, up: bool, order: seq<OperationId>)

  ghost predicate Init(s: Supervisor) {
    s.table.operations == map[] && s.table.nextSequence == 0 && s.builds == map[] && s.up && s.order == []
  }

  datatype Event =
    | BeginCall(plugin: PluginId, id: OperationId)
    | FinalizeCall(plugin: PluginId, id: OperationId)
    | AbortCall(plugin: PluginId, id: OperationId)
    | AcknowledgeCall(plugin: PluginId, id: OperationId)
    | BuildStarts(id: OperationId)
    | BuildSucceeds(id: OperationId, artifact: Artifact)
    | BuildFails(id: OperationId, errorCode: string)
    | BuildPublishes(id: OperationId)
    | BuildCannotWrite(id: OperationId, errorCode: string)
    | Crash
    | RestartFails(id: OperationId)
    | Reopen(installationId: string, expired: set<OperationId>)

  function NotIn(ids: set<OperationId>): OperationId -> bool {
    id => id !in ids
  }

  function EndBuild(s: Supervisor, id: OperationId, t: Table): Supervisor {
    s.(table := t, builds := s.builds - {id})
  }

  ghost predicate Step(s: Supervisor, e: Event, s': Supervisor) {
    match e
    case BeginCall(plugin, id) =>
      && s.up
      && var isNew := id !in s.table.operations && Begin(s.table, plugin, id).1.Ok?;
         s' == s.(table := Begin(s.table, plugin, id).0,
                  builds := if isNew then s.builds[id := Build(plugin, Spawned)] else s.builds,
                  order := if isNew then s.order + [id] else s.order)
    case FinalizeCall(plugin, id) =>
      s.up && s' == s.(table := Finalize(s.table, plugin, id).0)
    case AbortCall(plugin, id) =>
      s.up && s' == s.(table := Abort(s.table, plugin, id).0)
    case AcknowledgeCall(plugin, id) =>
      s.up && s' == s.(table := Acknowledge(s.table, plugin, id).0)
    case BuildStarts(id) =>
      && id in s.builds && s.builds[id].phase == Spawned
      && var (t, r) := SetState(s.table, s.builds[id].plugin, id, Building, None);
         s' == if r.Ok? then s.(table := t, builds := s.builds[id := s.builds[id].(phase := Running)])
               else EndBuild(s, id, t)
    case BuildSucceeds(id, artifact) =>
      && id in s.builds && s.builds[id].phase == Running
      && var r := Matching(s.table, s.builds[id].plugin, id);
         s' == if r.Ok? && r.value.state == Building
               then s.(builds := s.builds[id := s.builds[id].(phase := Writing(artifact))])
               else EndBuild(s, id, s.table)
    case BuildFails(id, errorCode) =>
      && id in s.builds && s.builds[id].phase == Running
      && s' == EndBuild(s, id, SetFailed(s.table, s.builds[id].plugin, id, errorCode).0)
    case BuildPublishes(id) =>
      && id in s.builds && s.builds[id].phase.Writing?
      && s' == EndBuild(s, id, SetBuilt(s.table, s.builds[id].plugin, id, s.builds[id].phase.artifact).0)
    case BuildCannotWrite(id, errorCode) =>
      && id in s.builds && s.builds[id].phase.Writing?
      && s' == EndBuild(s, id, SetFailed(s.table, s.builds[id].plugin, id, errorCode).0)
    case Crash =>
      s' == s.(builds := map[], up := false)
    case RestartFails(id) =>
      && !s.up && id in s.table.operations
      && var operation := s.table.operations[id].operation;
         && (operation.state.Accepted? || operation.state.Building?)
         && s' == s.(table := SetFailed(s.table, operation.pluginId, id, RESTART_ERROR_CODE).0)
    case Reopen(installationId, expired) =>
      && !s.up
      && (forall id :: id in s.table.operations ==>
            !s.table.operations[id].operation.state.Accepted? && !s.table.operations[id].operation.state.Building?)
      && (forall id :: id in expired ==>
            && id in s.table.operations
            && s.table.operations[id].operation.acknowledged && s.table.operations[id].operation.state.IsTerminal())
      && s'.builds == s.builds && s'.up
      && s'.table.installationId == installationId
      && s'.table.operations == s.table.operations - expired
      && IsResumePoint(s.table.operations, s'.table.nextSequence)
      && s'.order == Filter(s.order, NotIn(expired))
  }
}
