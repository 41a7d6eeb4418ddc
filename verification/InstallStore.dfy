/**
 The Supervisor's disk next to its operation table, and finalize as the list of durable
 effects it has left to do. A crash keeps a prefix of that list.
 */
module InstallStore {
  import opened Collections
  import opened OperationTable

  type GrantId = nat

  datatype Attestation = Attestation(installationId: string, operationId: OperationId, pluginId: PluginId,
                                     artifact: Artifact, baseImageDigest: string, sdkHash: string)

  /** A plugin directory; None when its `install.json` cannot be read. */
  type Directory = Option<Attestation>

  /** `prepared` maps an operation to the risk grant its prepared request names, if any. */
  datatype Disk = Disk(candidates: map<OperationId, Directory>, installed: map<PluginId, Directory>,
                       prepared: map<OperationId, Option<GrantId>>, mirroredGrants: set<OperationId>,
                       grants: set<GrantId>)

  datatype Store = Store(table: Table, disk: Disk)

  predicate Attests(directory: Directory, installationId: string, plugin: PluginId, id: OperationId, artifact: Artifact) {
    && directory.Some?
    && directory.value.installationId == installationId
    && directory.value.operationId == id
    && directory.value.pluginId == plugin
    && directory.value.artifact == artifact
  }

  datatype Effect = Rename | WriteRecord | RemoveGrant | RemovePrepared | RemoveMirror

  const MIRRORS: seq<Effect> := [RemoveGrant, RemovePrepared, RemoveMirror]

  function Apply(s: Store, plugin: PluginId, id: OperationId, e: Effect): Store {
    var disk := s.disk;
    match e
    case Rename =>
      if id !in disk.candidates then s
      else s.(disk := disk.(installed := disk.installed[plugin := disk.candidates[id]],
                            candidates := disk.candidates - {id}))
    case WriteRecord => s.(table := SetState(s.table, plugin, id, Finalized, None).0)
    case RemoveGrant =>
      if id in disk.prepared && disk.prepared[id].Some?
      then s.(disk := disk.(grants := disk.grants - {disk.prepared[id].value})) else s
    case RemovePrepared => s.(disk := disk.(prepared := disk.prepared - {id}))
    case RemoveMirror => s.(disk := disk.(mirroredGrants := disk.mirroredGrants - {id}))
  }

  function Run(s: Store, plugin: PluginId, id: OperationId, effects: seq<Effect>): Store
    decreases |effects|
  {
    if effects == [] then s else Run(Apply(s, plugin, id, effects[0]), plugin, id, effects[1..])
  }

  /** The directory finalize takes the attestation from: the installed one if there is one. */
  function AttestedDirectory(disk: Disk, plugin: PluginId, id: OperationId): Directory {
    if plugin in disk.installed then disk.installed[plugin]
    else if id in disk.candidates then disk.candidates[id] else None
  }

  /** What finalize still has to do from here, or why it refuses. */
  function FinalizePlan(s: Store, plugin: PluginId, id: OperationId): Result<seq<Effect>, OperationError> {
    match Matching(s.table, plugin, id)
    case Err(e) => Err(e)
    case Ok(operation) =>
      if operation.artifact.None? then Err(InvalidTransition)
      else if !Attests(AttestedDirectory(s.disk, plugin, id), s.table.installationId, plugin, id, operation.artifact.value)
      then Err(InstalledAttestationMismatch)
      else match operation.state
        case Finalized => if plugin in s.disk.installed then Ok(MIRRORS) else Err(InstalledAttestationMismatch)
        case Built =>
          if plugin !in s.disk.installed then Ok([Rename, WriteRecord] + MIRRORS)
          else if id in s.disk.candidates then Err(InstalledAttestationMismatch)
          else Ok([WriteRecord] + MIRRORS)
        case _ => Err(InvalidTransition)
  }

  /** The whole of finalize, uninterrupted; a refusal changes nothing. */
  function AfterFinalize(s: Store, plugin: PluginId, id: OperationId): Store {
    match FinalizePlan(s, plugin, id)
    case Err(_) => s
    case Ok(effects) => Run(s, plugin, id, effects)
  }

  // ----- what finalize achieves -----

  /** The grant, the prepared request and the mirrored grant of one operation are gone; nothing else is. */
  function WithoutMirrors(disk: Disk, id: OperationId): Disk {
    disk.(prepared := disk.prepared - {id}, mirroredGrants := disk.mirroredGrants - {id},
          grants := if id in disk.prepared && disk.prepared[id].Some?
                    then disk.grants - {disk.prepared[id].value} else disk.grants)
  }

  /** The plugin is installed from the directory the operation attests, and its record says so. */
  function Outcome(s: Store, plugin: PluginId, id: OperationId): Store {
    var r := Matching(s.table, plugin, id);
    if r.Ok? && r.value.state.Finalized? then s.(disk := WithoutMirrors(s.disk, id))
    else
      Store(SetState(s.table, plugin, id, Finalized, None).0,
            WithoutMirrors(s.disk.(installed := s.disk.installed[plugin := AttestedDirectory(s.disk, plugin, id)],
                                   candidates := s.disk.candidates - {id}), id))
  }

  lemma RunStep(s: Store, plugin: PluginId, id: OperationId, e: Effect, rest: seq<Effect>)
    ensures Run(s, plugin, id, [e] + rest) == Run(Apply(s, plugin, id, e), plugin, id, rest)
  {
    assert ([e] + rest)[1..] == rest;
  }

  /** Every prefix of the mirror removal can be started over. */
  lemma MirrorsPrefix(s: Store, plugin: PluginId, id: OperationId, k: nat)
    requires k <= 3
    ensures var s' := Run(s, plugin, id, MIRRORS[..k]);
            && s'.table == s.table
            && s'.disk.installed == s.disk.installed && s'.disk.candidates == s.disk.candidates
            && WithoutMirrors(s'.disk, id) == WithoutMirrors(s.disk, id)
    ensures Run(s, plugin, id, MIRRORS) == s.(disk := WithoutMirrors(s.disk, id))
  {
    var s1 := Apply(s, plugin, id, RemoveGrant);
    var s2 := Apply(s1, plugin, id, RemovePrepared);
    var s3 := Apply(s2, plugin, id, RemoveMirror);
    assert MIRRORS == [RemoveGrant] + [RemovePrepared, RemoveMirror] && MIRRORS[..3] == MIRRORS;
    assert MIRRORS[..1] == [RemoveGrant] + [] && MIRRORS[..2] == [RemoveGrant] + [RemovePrepared];
    RunStep(s, plugin, id, RemoveGrant, []);
    RunStep(s, plugin, id, RemoveGrant, [RemovePrepared]);
    RunStep(s, plugin, id, RemoveGrant, [RemovePrepared, RemoveMirror]);
    assert [RemovePrepared, RemoveMirror] == [RemovePrepared] + [RemoveMirror] && [RemovePrepared] == [RemovePrepared] + [];
    RunStep(s1, plugin, id, RemovePrepared, []);
    RunStep(s1, plugin, id, RemovePrepared, [RemoveMirror]);
    assert [RemoveMirror] == [RemoveMirror] + [];
    RunStep(s2, plugin, id, RemoveMirror, []);
    assert k == 0 || k == 1 || k == 2 || k == 3;
  }

  /** Uninterrupted finalize achieves the outcome, from whichever point it starts. */
  lemma FinalizeOutcome(s: Store, plugin: PluginId, id: OperationId)
    requires FinalizePlan(s, plugin, id).Ok?
    ensures AfterFinalize(s, plugin, id) == Outcome(s, plugin, id)
  {
    var operation := Matching(s.table, plugin, id).value;
    if operation.state.Finalized? {
      MirrorsPrefix(s, plugin, id, 0);
    } else if plugin in s.disk.installed {
      RunStep(s, plugin, id, WriteRecord, MIRRORS);
      MirrorsPrefix(Apply(s, plugin, id, WriteRecord), plugin, id, 0);
    } else {
      var s1 := Apply(s, plugin, id, Rename);
      assert [Rename, WriteRecord] + MIRRORS == [Rename] + ([WriteRecord] + MIRRORS);
      RunStep(s, plugin, id, Rename, [WriteRecord] + MIRRORS);
      RunStep(s1, plugin, id, WriteRecord, MIRRORS);
      MirrorsPrefix(Apply(s1, plugin, id, WriteRecord), plugin, id, 0);
    }
  }

  /** On the records, finalize does what the record rule says. */
  lemma FinalizeAgrees(s: Store, plugin: PluginId, id: OperationId)
    requires FinalizePlan(s, plugin, id).Ok?
    ensures Finalize(s.table, plugin, id).1.Ok? && AfterFinalize(s, plugin, id).table == Finalize(s.table, plugin, id).0
  {
    FinalizeOutcome(s, plugin, id);
  }

  /** A crash after any number of effects leaves a store from which finalize goes through to the same outcome. */
  lemma FinalizeCrashPoint(s: Store, plugin: PluginId, id: OperationId, k: nat)
    requires FinalizePlan(s, plugin, id).Ok? && k <= |FinalizePlan(s, plugin, id).value|
    ensures var crashed := Run(s, plugin, id, FinalizePlan(s, plugin, id).value[..k]);
            FinalizePlan(crashed, plugin, id).Ok? && Outcome(crashed, plugin, id) == Outcome(s, plugin, id)
  {
    var effects := FinalizePlan(s, plugin, id).value;
    var operation := Matching(s.table, plugin, id).value;
    if operation.state.Finalized? {
      MirrorsPrefix(s, plugin, id, k);
    } else if plugin in s.disk.installed {
      if k > 0 {
        assert effects[..k] == [WriteRecord] + MIRRORS[..k - 1];
        RunStep(s, plugin, id, WriteRecord, MIRRORS[..k - 1]);
        MirrorsPrefix(Apply(s, plugin, id, WriteRecord), plugin, id, k - 1);
      }
    } else {
      RenamePoint(s, plugin, id, k);
    }
  }

  lemma RenamePoint(s: Store, plugin: PluginId, id: OperationId, k: nat)
    requires FinalizePlan(s, plugin, id) == Ok([Rename, WriteRecord] + MIRRORS) && k <= 5
    ensures var crashed := Run(s, plugin, id, ([Rename, WriteRecord] + MIRRORS)[..k]);
            FinalizePlan(crashed, plugin, id).Ok? && Outcome(crashed, plugin, id) == Outcome(s, plugin, id)
  {
    var effects := [Rename, WriteRecord] + MIRRORS;
    var s1 := Apply(s, plugin, id, Rename);
    if k == 1 {
      assert effects[..1] == [Rename] + [];
      RunStep(s, plugin, id, Rename, []);
    } else if k > 1 {
      assert effects[..k] == [Rename] + ([WriteRecord] + MIRRORS[..k - 2]);
      RunStep(s, plugin, id, Rename, [WriteRecord] + MIRRORS[..k - 2]);
      RunStep(s1, plugin, id, WriteRecord, MIRRORS[..k - 2]);
      MirrorsPrefix(Apply(s1, plugin, id, WriteRecord), plugin, id, k - 2);
    }
  }

  /**
   Finalize is crash-idempotent: re-running it after a crash at any point reaches the disk and
   the records of an uninterrupted run. Nothing of the operation's grant mirrors is left behind.
   */
  lemma FinalizeIsCrashIdempotent(s: Store, plugin: PluginId, id: OperationId, k: nat)
    requires FinalizePlan(s, plugin, id).Ok? && k <= |FinalizePlan(s, plugin, id).value|
    ensures var crashed := Run(s, plugin, id, FinalizePlan(s, plugin, id).value[..k]);
            AfterFinalize(crashed, plugin, id) == AfterFinalize(s, plugin, id)
    ensures var disk := AfterFinalize(s, plugin, id).disk;
            && id !in disk.prepared && id !in disk.mirroredGrants && plugin in disk.installed
            && (id in s.disk.prepared && s.disk.prepared[id].Some? ==> s.disk.prepared[id].value !in disk.grants)
  {
    FinalizeOutcome(s, plugin, id);
    FinalizeCrashPoint(s, plugin, id, k);
    FinalizeOutcome(Run(s, plugin, id, FinalizePlan(s, plugin, id).value[..k]), plugin, id);
  }

  /** At every crash point the directories of installed plugins, and all other operations' files, are as they were. */
  lemma FinalizeTouchesOnlyItsOwn(s: Store, plugin: PluginId, id: OperationId, effects: seq<Effect>)
    requires FinalizePlan(s, plugin, id).Ok? && effects <= FinalizePlan(s, plugin, id).value
    ensures var disk := Run(s, plugin, id, effects).disk;
            && (forall q :: q in s.disk.installed ==> q in disk.installed && disk.installed[q] == s.disk.installed[q])
            && (forall q :: q in disk.installed && q !in s.disk.installed ==>
                  q == plugin && disk.installed[q] == AttestedDirectory(s.disk, plugin, id))
            && (forall o :: o != id ==>
                  && (o in disk.candidates <==> o in s.disk.candidates)
                  && (o in disk.prepared <==> o in s.disk.prepared)
                  && (o in disk.mirroredGrants <==> o in s.disk.mirroredGrants))
            && (forall g :: g in s.disk.grants && g !in disk.grants ==> id in s.disk.prepared && s.disk.prepared[id] == Some(g))
  {
    if effects != [] && effects[0] == Rename {
      RunTouches(Apply(s, plugin, id, Rename), plugin, id, effects[1..]);
    } else {
      RunTouches(s, plugin, id, effects);
    }
  }

  lemma {:induction false} RunTouches(s: Store, plugin: PluginId, id: OperationId, effects: seq<Effect>)
    requires Rename !in effects
    ensures var disk := Run(s, plugin, id, effects).disk;
            && disk.installed == s.disk.installed && disk.candidates == s.disk.candidates
            && (forall o :: o in disk.prepared ==> o in s.disk.prepared && disk.prepared[o] == s.disk.prepared[o])
            && (forall o :: o != id ==>
                  && (o in disk.prepared <==> o in s.disk.prepared)
                  && (o in disk.mirroredGrants <==> o in s.disk.mirroredGrants))
            && (forall g :: g in s.disk.grants && g !in disk.grants ==> id in s.disk.prepared && s.disk.prepared[id] == Some(g))
    decreases |effects|
  {
    if effects != [] {
      RunTouches(Apply(s, plugin, id, effects[0]), plugin, id, effects[1..]);
    }
  }
}
