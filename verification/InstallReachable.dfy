/** The protocol can do its work: for every plugin and build there is a run that installs it. */
module InstallReachable {
  import opened Collections
  import opened OperationTable
  import opened OperationSafety
  import opened InstallProtocol
  import opened InstallSafety

  /** One install: the plugin, its operation, what was staged and what the build makes of it. */
  datatype Case = Case(installation: string, plugin: PluginId, id: OperationId, staged: Staged, artifact: Artifact)

  const BUILD_ERROR := "PLUGIN_BUILD_FAILED"

  function Record(c: Case, state: OperationState): Operation {
    Operation(c.id, c.plugin, state, if state.Built? || state.Finalized? then Some(c.artifact) else None,
              if state.Failed? then Some(BUILD_ERROR) else None, false)
  }

  /** The Supervisor with the case's operation in `state`, and its build in `phase` if it still runs. */
  function Holding(c: Case, state: OperationState, phase: Option<BuildPhase>): Supervisor {
    Supervisor(Table(c.installation, map[c.id := StoredOperation(c.installation, Record(c, state), 0)], 1),
               if phase.Some? then map[c.id := Build(c.plugin, phase.value)] else map[], true, [c.id])
  }

  function Empty(c: Case): System {
    System(Supervisor(Table(c.installation, map[], 0), map[], true, []), map[], map[], {}, {}, {}, map[], map[], {})
  }

  /** Thread 0 at `task`, no row yet. */
  function Working(c: Case, sup: Supervisor, task: Task): System {
    System(sup, map[], map[0 := task], {}, {}, {c.id}, map[], map[], {})
  }

  function Inserted(c: Case, sup: Supervisor, task: Task): System {
    Working(c, sup, task).(rows := map[c.plugin := InstallingRow(c.staged, c.id, c.artifact)])
  }

  function Completed(c: Case): System {
    var row := InstallingRow(c.staged, c.id, c.artifact);
    Working(c, Holding(c, Finalized, None), CallAcknowledge(c.plugin, c.id))
    .(rows := map[c.plugin := row.(status := Installed, operationId := None)], completed := map[c.id := row], acks := {(c.plugin, c.id)})
  }

  function Waiting(c: Case): Task {
    Wait(c.plugin, c.id, c.staged, Record(c, Accepted))
  }

  // ----- the single moves -----

  lemma StartMove(c: Case)
    ensures Start(Empty(c))
    ensures Next(Empty(c), StartInstall(0, c.plugin, c.id, c.staged), Working(c, Empty(c).sup, CallBegin(c.plugin, c.id, c.staged)))
  {
  }

  lemma SupervisorBegins(c: Case)
    ensures Step(Empty(c).sup, BeginCall(c.plugin, c.id), Holding(c, Accepted, Some(Spawned)))
    ensures Begin(Empty(c).sup.table, c.plugin, c.id).1 == Ok(Record(c, Accepted))
  {
    var t := Empty(c).sup.table;
    assert Unacknowledged(t) == {};
    assert Begin(t, c.plugin, c.id).0 == Holding(c, Accepted, Some(Spawned)).table;
  }

  lemma BeginMove(c: Case)
    ensures Next(Working(c, Empty(c).sup, CallBegin(c.plugin, c.id, c.staged)), TaskMove(0),
                 Working(c, Holding(c, Accepted, Some(Spawned)), Waiting(c)))
  {
    SupervisorBegins(c);
    var s := Working(c, Empty(c).sup, CallBegin(c.plugin, c.id, c.staged));
    assert BeginStep(s, 0, Working(c, Holding(c, Accepted, Some(Spawned)), Waiting(c)));
  }

  lemma SupervisorBuilds(c: Case)
    ensures Step(Holding(c, Accepted, Some(Spawned)), BuildStarts(c.id), Holding(c, Building, Some(Running)))
    ensures Step(Holding(c, Building, Some(Running)), BuildSucceeds(c.id, c.artifact), Holding(c, Building, Some(Writing(c.artifact))))
  {
  }

  lemma SupervisorPublishes(c: Case)
    ensures Step(Holding(c, Building, Some(Writing(c.artifact))), BuildPublishes(c.id), Holding(c, Built, None))
  {
    assert Holding(c, Building, Some(Writing(c.artifact))).builds - {c.id} == map[];
  }

  /** Any step of the Supervisor that neither begins, reopens nor acknowledges is a move of the system. */
  lemma SupervisorAlone(c: Case, x: Supervisor, e: Event, y: Supervisor)
    requires Step(x, e, y) && !e.BeginCall? && !e.Reopen? && !e.AcknowledgeCall?
    ensures Next(Working(c, x, Waiting(c)), SupervisorMove(e), Working(c, y, Waiting(c)))
  {
  }

  lemma ThreadAlone(c: Case, sup: Supervisor, task: Task, next: Task)
    requires MayBecome(Working(c, sup, task), task, Some(next)) && !next.CallAcknowledge?
    ensures Next(Working(c, sup, task), TaskMove(0), Working(c, sup, next))
  {
    assert Working(c, sup, next) == Become(Working(c, sup, task), 0, Some(next));
  }

  lemma InsertMove(c: Case, sup: Supervisor)
    ensures Next(Working(c, sup, InsertRow(c.plugin, c.id, c.staged, c.artifact)), TaskMove(0),
                 Inserted(c, sup, CallFinalize(c.plugin, c.id, c.staged)))
  {
    var insert := InsertRow(c.plugin, c.id, c.staged, c.artifact);
    var s1 := Inserted(c, sup, insert);
    assert RowEffect(Working(c, sup, insert), insert, s1);
    assert MayFollowRow(insert, Some(AfterRow(insert)));
    assert Inserted(c, sup, AfterRow(insert)) == Become(s1, 0, Some(AfterRow(insert)));
  }

  lemma FinalizeMove(c: Case)
    requires MatchesStaged(c.artifact, c.staged)
    ensures Next(Inserted(c, Holding(c, Built, None), CallFinalize(c.plugin, c.id, c.staged)), TaskMove(0),
                 Inserted(c, Holding(c, Finalized, None), CompleteRow(c.plugin, c.id)))
  {
    assert CallStep(Inserted(c, Holding(c, Built, None), CallFinalize(c.plugin, c.id, c.staged)), 0,
                    Inserted(c, Holding(c, Finalized, None), CompleteRow(c.plugin, c.id)));
  }

  lemma CompleteMove(c: Case)
    ensures Next(Inserted(c, Holding(c, Finalized, None), CompleteRow(c.plugin, c.id)), TaskMove(0), Completed(c))
  {
    var complete := CompleteRow(c.plugin, c.id);
    var s := Inserted(c, Holding(c, Finalized, None), complete);
    var s1 := Completed(c).(tasks := map[0 := complete], acks := {});
    assert MayFollowRow(complete, Some(AfterRow(complete)));
    assert RowEffect(s, complete, s1) && Completed(c) == Become(s1, 0, Some(AfterRow(complete)));
  }

  // ----- the run -----

  lemma Extend(states: seq<System>, moves: seq<Move>, m: Move, s: System) returns (longer: seq<System>, more: seq<Move>)
    requires IsSystemRun(states, moves) && Next(states[|states| - 1], m, s)
    ensures IsSystemRun(longer, more) && longer == states + [s]
  {
    longer, more := states + [s], moves + [m];
    forall i | 0 <= i < |more| ensures NextAt(longer, more, i) {
      if i < |moves| { assert NextAt(states, moves, i); }
    }
  }

  /** The operation is begun and its build has taken up its work. */
  lemma BuildCanRun(c: Case) returns (states: seq<System>, moves: seq<Move>)
    ensures IsSystemRun(states, moves)
    ensures states[|states| - 1] == Working(c, Holding(c, Building, Some(Running)), Waiting(c))
  {
    var spawned, running := Holding(c, Accepted, Some(Spawned)), Holding(c, Building, Some(Running));
    StartMove(c);
    BeginMove(c);
    SupervisorBuilds(c);
    SupervisorAlone(c, spawned, BuildStarts(c.id), running);
    states, moves := [Empty(c)], [];
    states, moves := Extend(states, moves, StartInstall(0, c.plugin, c.id, c.staged),
                            Working(c, Empty(c).sup, CallBegin(c.plugin, c.id, c.staged)));
    states, moves := Extend(states, moves, TaskMove(0), Working(c, spawned, Waiting(c)));
    states, moves := Extend(states, moves, SupervisorMove(BuildStarts(c.id)), Working(c, running, Waiting(c)));
  }

  /** Its build publishes its artifact. */
  lemma BuildCanFinish(c: Case) returns (states: seq<System>, moves: seq<Move>)
    ensures IsSystemRun(states, moves)
    ensures states[|states| - 1] == Working(c, Holding(c, Built, None), Waiting(c))
  {
    var running, writing, built :=
      Holding(c, Building, Some(Running)), Holding(c, Building, Some(Writing(c.artifact))), Holding(c, Built, None);
    states, moves := BuildCanRun(c);
    SupervisorBuilds(c);
    SupervisorPublishes(c);
    SupervisorAlone(c, running, BuildSucceeds(c.id, c.artifact), writing);
    SupervisorAlone(c, writing, BuildPublishes(c.id), built);
    states, moves := Extend(states, moves, SupervisorMove(BuildSucceeds(c.id, c.artifact)), Working(c, writing, Waiting(c)));
    states, moves := Extend(states, moves, SupervisorMove(BuildPublishes(c.id)), Working(c, built, Waiting(c)));
  }

  lemma WaitMoves(c: Case)
    requires MatchesStaged(c.artifact, c.staged)
    ensures var sup, poll, wait := Holding(c, Built, None), Poll(c.plugin, c.id, c.staged), Wait(c.plugin, c.id, c.staged, Record(c, Built));
            && Next(Working(c, sup, Waiting(c)), TaskMove(0), Working(c, sup, poll))
            && Next(Working(c, sup, poll), TaskMove(0), Working(c, sup, wait))
            && Next(Working(c, sup, wait), TaskMove(0), Working(c, sup, InsertRow(c.plugin, c.id, c.staged, c.artifact)))
  {
    var sup, poll, wait := Holding(c, Built, None), Poll(c.plugin, c.id, c.staged), Wait(c.plugin, c.id, c.staged, Record(c, Built));
    ThreadAlone(c, sup, Waiting(c), poll);
    ThreadAlone(c, sup, poll, wait);
    ThreadAlone(c, sup, wait, InsertRow(c.plugin, c.id, c.staged, c.artifact));
  }

  /** A build that matches what was staged can be installed. */
  lemma InstallCanComplete(c: Case) returns (states: seq<System>, moves: seq<Move>)
    requires MatchesStaged(c.artifact, c.staged)
    ensures IsSystemRun(states, moves)
    ensures states[|states| - 1] == Completed(c)
  {
    var built, finalized := Holding(c, Built, None), Holding(c, Finalized, None);
    states, moves := BuildCanFinish(c);
    WaitMoves(c);
    InsertMove(c, built);
    FinalizeMove(c);
    CompleteMove(c);
    states, moves := Extend(states, moves, TaskMove(0), Working(c, built, Poll(c.plugin, c.id, c.staged)));
    states, moves := Extend(states, moves, TaskMove(0), Working(c, built, Wait(c.plugin, c.id, c.staged, Record(c, Built))));
    states, moves := Extend(states, moves, TaskMove(0), Working(c, built, InsertRow(c.plugin, c.id, c.staged, c.artifact)));
    states, moves := Extend(states, moves, TaskMove(0), Inserted(c, built, CallFinalize(c.plugin, c.id, c.staged)));
    states, moves := Extend(states, moves, TaskMove(0), Inserted(c, finalized, CompleteRow(c.plugin, c.id)));
    states, moves := Extend(states, moves, TaskMove(0), Completed(c));
  }

  // ----- an Aborted operation that turns Failed -----

  function Aborting(c: Case): Task {
    CallAbort(c.plugin, c.id, false)
  }

  /** The thread has had its abort confirmed and is about to acknowledge it. */
  function Acknowledging(c: Case, sup: Supervisor): System {
    Working(c, sup, CallAcknowledge(c.plugin, c.id)).(acks := {(c.plugin, c.id)})
  }

  lemma SupervisorFails(c: Case, state: OperationState)
    requires state.Building? || state.Aborted?
    ensures Step(Holding(c, state, Some(Running)), BuildFails(c.id, BUILD_ERROR), Holding(c, Failed, None))
  {
    assert Holding(c, state, Some(Running)).builds - {c.id} == map[];
  }

  lemma AbortMove(c: Case)
    ensures Next(Working(c, Holding(c, Building, Some(Running)), Aborting(c)), TaskMove(0),
                 Acknowledging(c, Holding(c, Aborted, Some(Running))))
  {
    assert CallStep(Working(c, Holding(c, Building, Some(Running)), Aborting(c)), 0, Acknowledging(c, Holding(c, Aborted, Some(Running))));
  }

  /** An install that times out aborts its operation, and the build, failing afterwards, overwrites the outcome. */
  lemma AbortedCanTurnFailed(c: Case) returns (states: seq<System>, moves: seq<Move>)
    ensures IsSystemRun(states, moves) && |states| >= 2
    ensures states[|states| - 2].sup == Holding(c, Aborted, Some(Running))
    ensures states[|states| - 1].sup == Holding(c, Failed, None)
  {
    var running, aborted, failed :=
      Holding(c, Building, Some(Running)), Holding(c, Aborted, Some(Running)), Holding(c, Failed, None);
    states, moves := BuildCanRun(c);
    ThreadAlone(c, running, Waiting(c), Aborting(c));
    AbortMove(c);
    SupervisorFails(c, Aborted);
    states, moves := Extend(states, moves, TaskMove(0), Working(c, running, Aborting(c)));
    states, moves := Extend(states, moves, TaskMove(0), Acknowledging(c, aborted));
    assert SupervisorStep(Acknowledging(c, aborted), BuildFails(c.id, BUILD_ERROR), Acknowledging(c, failed));
    states, moves := Extend(states, moves, SupervisorMove(BuildFails(c.id, BUILD_ERROR)), Acknowledging(c, failed));
  }

  // ----- a Failed operation that cannot be aborted -----

  /** No thread, no row: what a restarted Core finds. */
  function Idle(c: Case, sup: Supervisor): System {
    Working(c, sup, Waiting(c)).(tasks := map[])
  }

  lemma ReconcileMoves(c: Case)
    ensures var failed := Holding(c, Failed, None);
            var status, decide := CallStatus(c.plugin, c.id, None), Decide(c.plugin, c.id, None, Record(c, Failed));
            && Next(Idle(c, failed), StartReconcile(0, c.plugin, c.id), Working(c, failed, status))
            && Next(Working(c, failed, status), TaskMove(0), Working(c, failed, decide))
            && Next(Working(c, failed, decide), TaskMove(0), Working(c, failed, Aborting(c)))
  {
    var failed := Holding(c, Failed, None);
    var status, decide := CallStatus(c.plugin, c.id, None), Decide(c.plugin, c.id, None, Record(c, Failed));
    assert Working(c, failed, status) == Idle(c, failed).(tasks := Idle(c, failed).tasks[0 := status]);
    ThreadAlone(c, failed, status, decide);
    ThreadAlone(c, failed, decide, Aborting(c));
  }

  /** The abort of a Failed operation is refused, and the thread ends. */
  lemma RefusedMove(c: Case)
    ensures Next(Working(c, Holding(c, Failed, None), Aborting(c)), TaskMove(0), Idle(c, Holding(c, Failed, None)))
  {
    assert CallStep(Working(c, Holding(c, Failed, None), Aborting(c)), 0, Idle(c, Holding(c, Failed, None)));
  }

  /** Reconciliation asks to abort a Failed operation, is refused, and leaves it as it found it. */
  lemma ReconcileCanFail(c: Case) returns (states: seq<System>, moves: seq<Move>)
    ensures IsSystemRun(states, moves) && |states| >= 2
    ensures states[|states| - 2] == Working(c, Holding(c, Failed, None), Aborting(c))
    ensures states[|states| - 1] == Idle(c, Holding(c, Failed, None))
  {
    var running, failed := Holding(c, Building, Some(Running)), Holding(c, Failed, None);
    states, moves := BuildCanRun(c);
    SupervisorFails(c, Building);
    SupervisorAlone(c, running, BuildFails(c.id, BUILD_ERROR), failed);
    ReconcileMoves(c);
    RefusedMove(c);
    states, moves := Extend(states, moves, SupervisorMove(BuildFails(c.id, BUILD_ERROR)), Working(c, failed, Waiting(c)));
    states, moves := Extend(states, moves, CoreCrash, Idle(c, failed));
    states, moves := Extend(states, moves, StartReconcile(0, c.plugin, c.id), Working(c, failed, CallStatus(c.plugin, c.id, None)));
    states, moves := Extend(states, moves, TaskMove(0), Working(c, failed, Decide(c.plugin, c.id, None, Record(c, Failed))));
    states, moves := Extend(states, moves, TaskMove(0), Working(c, failed, Aborting(c)));
    states, moves := Extend(states, moves, TaskMove(0), Idle(c, failed));
  }
}
