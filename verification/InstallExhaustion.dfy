/** The table of operations can fill up: a run in which 256 builds fail, one after the other. */
module InstallExhaustion {
  import opened Collections
  import opened OperationTable
  import opened OperationSafety
  import opened InstallProtocol
  import opened InstallSafety
  import opened InstallAcknowledgement
  import opened InstallReachable

  /** One plugin, installed again and again. */
  datatype Trial = Trial(installation: string, plugin: PluginId, staged: Staged)

  function Attempt(t: Trial, id: OperationId, state: OperationState): Operation {
    Operation(id, t.plugin, state, None, if state.Failed? then Some(BUILD_ERROR) else None, false)
  }

  function Stored(t: Trial, id: OperationId, state: OperationState): StoredOperation {
    StoredOperation(t.installation, Attempt(t, id, state), id)
  }

  function FailedUpTo(t: Trial, n: nat): map<OperationId, StoredOperation> {
    map id: OperationId | id < n :: Stored(t, id, Failed)
  }

  function Order(n: nat): seq<OperationId> {
    seq(n, i => i)
  }

  function Ids(n: nat): (ids: set<OperationId>)
    ensures |ids| == n && forall id: OperationId :: id in ids <==> id < n
  {
    if n == 0 then {} else Ids(n - 1) + {n - 1}
  }

  /** `n` operations have failed and nothing else has happened. */
  function Filled(t: Trial, n: nat): Supervisor {
    Supervisor(Table(t.installation, FailedUpTo(t, n), n), map[], true, Order(n))
  }

  /** The same with operation `n` under way. */
  function Growing(t: Trial, n: nat, state: OperationState, phase: BuildPhase): Supervisor {
    Supervisor(Table(t.installation, FailedUpTo(t, n)[n := Stored(t, n, state)], n + 1),
               map[n := Build(t.plugin, phase)], true, Order(n) + [n])
  }

  /** A system whose only thread, if any, is number 0. */
  function Around(sup: Supervisor, tasks: map<nat, Task>, used: set<OperationId>): System {
    System(sup, map[], tasks, {}, {}, used, map[], map[], {})
  }

  function Resting(t: Trial, n: nat): System {
    Around(Filled(t, n), map[], Ids(n))
  }

  lemma FilledTable(t: Trial, n: nat)
    ensures Unacknowledged(Filled(t, n).table) == Ids(n) && !IsBusy(Filled(t, n).table)
  {
  }

  // ----- one failed attempt -----

  lemma StartAttempt(t: Trial, n: nat)
    ensures Next(Resting(t, n), StartInstall(0, t.plugin, n, t.staged),
                 Around(Filled(t, n), map[0 := CallBegin(t.plugin, n, t.staged)], Ids(n + 1)))
  {
    assert Ids(n + 1) == Ids(n) + {n};
  }

  lemma BeginAccepted(t: Trial, n: nat)
    requires n < MAX_UNACKNOWLEDGED
    ensures Begin(Filled(t, n).table, t.plugin, n) == (Growing(t, n, Accepted, Spawned).table, Ok(Attempt(t, n, Accepted)))
    ensures Step(Filled(t, n), BeginCall(t.plugin, n), Growing(t, n, Accepted, Spawned))
  {
    FilledTable(t, n);
  }

  lemma BeginAttempt(t: Trial, n: nat)
    requires n < MAX_UNACKNOWLEDGED
    ensures Next(Around(Filled(t, n), map[0 := CallBegin(t.plugin, n, t.staged)], Ids(n + 1)), TaskMove(0),
                 Around(Growing(t, n, Accepted, Spawned), map[0 := Wait(t.plugin, n, t.staged, Attempt(t, n, Accepted))], Ids(n + 1)))
  {
    BeginAccepted(t, n);
    var s := Around(Filled(t, n), map[0 := CallBegin(t.plugin, n, t.staged)], Ids(n + 1));
    var s' := Around(Growing(t, n, Accepted, Spawned), map[0 := Wait(t.plugin, n, t.staged, Attempt(t, n, Accepted))], Ids(n + 1));
    assert s' == Become(s.(sup := s'.sup), 0, Some(Wait(t.plugin, n, t.staged, Attempt(t, n, Accepted))));
    assert BeginStep(s, 0, s');
  }

  lemma AttemptFails(t: Trial, n: nat)
    ensures Step(Growing(t, n, Accepted, Spawned), BuildStarts(n), Growing(t, n, Building, Running))
    ensures Step(Growing(t, n, Building, Running), BuildFails(n, BUILD_ERROR), Filled(t, n + 1))
  {
    var running := Growing(t, n, Building, Running);
    assert FailedUpTo(t, n)[n := Stored(t, n, Failed)] == FailedUpTo(t, n + 1);
    assert SetFailed(running.table, t.plugin, n, BUILD_ERROR).0.operations == FailedUpTo(t, n + 1);
    assert running.builds - {n} == map[];
    assert Order(n) + [n] == Order(n + 1);
  }

  lemma BuildAttempt(t: Trial, n: nat, tasks: map<nat, Task>)
    ensures Next(Around(Growing(t, n, Accepted, Spawned), tasks, Ids(n + 1)), SupervisorMove(BuildStarts(n)),
                 Around(Growing(t, n, Building, Running), tasks, Ids(n + 1)))
    ensures Next(Around(Growing(t, n, Building, Running), tasks, Ids(n + 1)), SupervisorMove(BuildFails(n, BUILD_ERROR)),
                 Around(Filled(t, n + 1), tasks, Ids(n + 1)))
  {
    AttemptFails(t, n);
  }

  // ----- nothing is ever settled on the way -----

  ghost predicate Unsettled(s: System) {
    forall id :: !Settled(s, id)
  }

  ghost predicate NeverSettled(states: seq<System>) {
    forall k :: 0 <= k < |states| ==> Unsettled(states[k])
  }

  lemma NothingSettled(t: Trial, n: nat, tasks: map<nat, Task>, used: set<OperationId>)
    ensures Unsettled(Around(Filled(t, n), tasks, used))
    ensures Unsettled(Around(Growing(t, n, Accepted, Spawned), tasks, used))
    ensures Unsettled(Around(Growing(t, n, Building, Running), tasks, used))
  {
  }

  lemma ExtendUnsettled(states: seq<System>, moves: seq<Move>, m: Move, s: System) returns (longer: seq<System>, more: seq<Move>)
    requires IsSystemRun(states, moves) && Next(states[|states| - 1], m, s) && NeverSettled(states) && Unsettled(s)
    ensures IsSystemRun(longer, more) && longer[|longer| - 1] == s && NeverSettled(longer)
  {
    longer, more := Extend(states, moves, m, s);
  }

  /** However far the table has filled up below its limit, it can fill up by one more. */
  lemma OneMore(t: Trial, n: nat, states: seq<System>, moves: seq<Move>) returns (longer: seq<System>, more: seq<Move>)
    requires n < MAX_UNACKNOWLEDGED && IsSystemRun(states, moves) && NeverSettled(states) && states[|states| - 1] == Resting(t, n)
    ensures IsSystemRun(longer, more) && NeverSettled(longer) && longer[|longer| - 1] == Resting(t, n + 1)
  {
    var used := Ids(n + 1);
    var calling, waiting := map[0 := CallBegin(t.plugin, n, t.staged)], map[0 := Wait(t.plugin, n, t.staged, Attempt(t, n, Accepted))];
    StartAttempt(t, n);
    BeginAttempt(t, n);
    BuildAttempt(t, n, waiting);
    NothingSettled(t, n, calling, used);
    NothingSettled(t, n, waiting, used);
    NothingSettled(t, n + 1, waiting, used);
    NothingSettled(t, n + 1, map[], used);
    longer, more := ExtendUnsettled(states, moves, StartInstall(0, t.plugin, n, t.staged), Around(Filled(t, n), calling, used));
    longer, more := ExtendUnsettled(longer, more, TaskMove(0), Around(Growing(t, n, Accepted, Spawned), waiting, used));
    longer, more := ExtendUnsettled(longer, more, SupervisorMove(BuildStarts(n)), Around(Growing(t, n, Building, Running), waiting, used));
    longer, more := ExtendUnsettled(longer, more, SupervisorMove(BuildFails(n, BUILD_ERROR)), Around(Filled(t, n + 1), waiting, used));
    longer, more := ExtendUnsettled(longer, more, CoreCrash, Resting(t, n + 1));
  }

  lemma {:induction false} CanFillUpTo(t: Trial, n: nat) returns (states: seq<System>, moves: seq<Move>)
    requires n <= MAX_UNACKNOWLEDGED
    ensures IsSystemRun(states, moves) && NeverSettled(states) && states[|states| - 1] == Resting(t, n)
  {
    if n == 0 {
      NothingSettled(t, 0, map[], {});
      assert FailedUpTo(t, 0) == map[] && Order(0) == [] && Ids(0) == {};
      states, moves := [Resting(t, 0)], [];
    } else {
      states, moves := CanFillUpTo(t, n - 1);
      states, moves := OneMore(t, n - 1, states, moves);
    }
  }

  lemma AllStuck(t: Trial, n: nat, states: seq<System>, id: OperationId)
    requires states != [] && NeverSettled(states) && states[|states| - 1] == Resting(t, n) && id < n
    ensures Stuck(states[|states| - 1], id) && !EverSettled(states, |states| - 1, id)
  {
    forall k ensures !SettledAt(states, k, id) {
      if 0 <= k < |states| { assert Unsettled(states[k]); }
    }
  }

  /** For every number of operations up to the limit there is a run in which that many have failed and are stuck. */
  lemma CanGetStuck(t: Trial, n: nat) returns (states: seq<System>, moves: seq<Move>, stuck: set<OperationId>)
    requires n <= MAX_UNACKNOWLEDGED
    ensures IsSystemRun(states, moves) && |stuck| == n
    ensures forall id :: id in stuck ==> Stuck(states[|states| - 1], id) && !EverSettled(states, |states| - 1, id)
  {
    states, moves := CanFillUpTo(t, n);
    stuck := Ids(n);
    forall id | id in stuck ensures Stuck(states[|states| - 1], id) && !EverSettled(states, |states| - 1, id) {
      AllStuck(t, n, states, id);
    }
  }

  /** There is a run after which no operation can be begun any more, in that run or in any continuation of it. */
  lemma TableCanBeExhausted(t: Trial) returns (states: seq<System>, moves: seq<Move>, stuck: set<OperationId>)
    ensures IsSystemRun(states, moves) && |stuck| == MAX_UNACKNOWLEDGED
    ensures forall id :: id in stuck ==> Stuck(states[|states| - 1], id) && !EverSettled(states, |states| - 1, id)
  {
    states, moves, stuck := CanGetStuck(t, MAX_UNACKNOWLEDGED);
  }
}
