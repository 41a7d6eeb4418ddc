/** The Supervisor's operation manager as the object the Supervisor mutates under its lock. */
module InstallOperationManagers {
  import opened Collections
  import opened Sorting
  import opened OperationTable
  import opened InstallStore
  import Safety = OperationSafety

  predicate IsListed(t: Table, id: OperationId) {
    id in t.operations && t.operations[id].installationId == t.installationId && !t.operations[id].operation.acknowledged
  }

  function ListedIn(t: Table): OperationId -> bool {
    (id: OperationId) => IsListed(t, id)
  }

  function Sequence(t: Table, id: OperationId): nat {
    if id in t.operations then t.operations[id].sequence else 0
  }

  function BySequence(t: Table): (OperationId, OperationId) -> bool {
    (a: OperationId, b: OperationId) => Sequence(t, a) <= Sequence(t, b)
  }

  /** The reference: the creation order, restricted to what this installation has not acknowledged. */
  ghost function CreationOrder(t: Table, order: seq<OperationId>): seq<OperationId> {
    Filter(order, ListedIn(t))
  }

  /** `ids` are the listed operations that are not in `rest`, each once. */
  ghost predicate Enumerates(t: Table, rest: set<OperationId>, ids: seq<OperationId>) {
    Distinct(ids) && forall id :: id in ids <==> id !in rest && IsListed(t, id)
  }

  /** All listed operations, each once, in the order of their numbers. */
  ghost predicate IsFullList(t: Table, ids: seq<OperationId>) {
    Enumerates(t, {}, ids) && SortedBy(BySequence(t), ids)
  }

  lemma CreationOrderFacts(t: Table, order: seq<OperationId>)
    requires Safety.Numbered(t, order)
    ensures IsFullList(t, CreationOrder(t, order))
    ensures t.nextSequence < U64_MAX ==> NoTies(BySequence(t), CreationOrder(t, order))
  {
    var r := CreationOrder(t, order);
    Safety.FilterAscending(t, order, ListedIn(t));
    forall i, j | 0 <= i < j < |r|
      ensures r[i] != r[j] && BySequence(t)(r[i], r[j])
      ensures t.nextSequence < U64_MAX ==> !BySequence(t)(r[j], r[i])
    {
      assert Safety.Precedes(t, r[i], r[j]);
    }
    forall a, b | t.nextSequence < U64_MAX && a in r && b in r && BySequence(t)(a, b) && BySequence(t)(b, a) ensures a == b {
      var i :| 0 <= i < |r| && r[i] == a;
      var j :| 0 <= j < |r| && r[j] == b;
    }
  }

  /** The operations with the given IDs; an unknown ID stands for nothing. */
  function Summaries(t: Table, ids: seq<OperationId>): (r: seq<Operation>)
    requires forall id :: id in ids ==> id in t.operations
    ensures |r| == |ids| && forall i :: 0 <= i < |r| ==> r[i] == t.operations[ids[i]].operation
  {
    seq(|ids|, i requires 0 <= i < |ids| => t.operations[ids[i]].operation)
  }

  lemma RunAppend(s: Store, plugin: PluginId, id: OperationId, effects: seq<Effect>, e: Effect)
    ensures Run(s, plugin, id, effects + [e]) == Apply(Run(s, plugin, id, effects), plugin, id, e)
    decreases |effects|
  {
    if effects == [] {
      assert effects + [e] == [e] + [];
      RunStep(s, plugin, id, e, []);
    } else {
      assert effects + [e] == [effects[0]] + (effects[1..] + [e]);
      RunStep(s, plugin, id, effects[0], effects[1..] + [e]);
      RunAppend(Apply(s, plugin, id, effects[0]), plugin, id, effects[1..], e);
    }
  }

  lemma {:induction false} RunConcat(s: Store, plugin: PluginId, id: OperationId, first: seq<Effect>, second: seq<Effect>)
    ensures Run(s, plugin, id, first + second) == Run(Run(s, plugin, id, first), plugin, id, second)
    decreases |first|
  {
    if first == [] {
      assert first + second == second;
    } else {
      assert first + second == [first[0]] + (first[1..] + second);
      RunStep(s, plugin, id, first[0], first[1..] + second);
      RunConcat(Apply(s, plugin, id, first[0]), plugin, id, first[1..], second);
    }
  }

  lemma RunMirrorsTable(s: Store, plugin: PluginId, id: OperationId, effects: seq<Effect>)
    requires WriteRecord !in effects && Rename !in effects
    ensures Run(s, plugin, id, effects).table == s.table
    decreases |effects|
  {
    if effects != [] {
      RunMirrorsTable(Apply(s, plugin, id, effects[0]), plugin, id, effects[1..]);
    }
  }

  /** The record a restart leaves behind. */
  function AfterRestart(stored: StoredOperation): StoredOperation {
    if stored.operation.state.Accepted? || stored.operation.state.Building?
    then stored.(operation := stored.operation.(state := Failed, errorCode := Some(RESTART_ERROR_CODE)))
    else stored
  }

  lemma FinalizedStays(s: Store, plugin: PluginId, id: OperationId)
    requires Matching(s.table, plugin, id).Ok? && Matching(s.table, plugin, id).value.state.Finalized?
    ensures FinalizePlan(s, plugin, id).Ok? ==>
              FinalizePlan(s, plugin, id).value == MIRRORS && forall k :: 0 <= k <= 3 ==> Run(s, plugin, id, MIRRORS[..k]).table == s.table
  {
    forall k | 0 <= k <= 3 ensures Run(s, plugin, id, MIRRORS[..k]).table == s.table {
      RunMirrorsTable(s, plugin, id, MIRRORS[..k]);
    }
  }

  /** Nothing was installed, uninstalled or added. */
  ghost predicate OnlyRemoved(before: Disk, after: Disk) {
    && after.installed == before.installed
    && after.candidates.Keys <= before.candidates.Keys
    && after.prepared.Keys <= before.prepared.Keys
    && after.mirroredGrants <= before.mirroredGrants
    && after.grants <= before.grants
  }

  /** A restart has done with the files of an operation that it found in `state`. */
  ghost predicate Tidied(disk: Disk, id: OperationId, state: OperationState) {
    && (state.Accepted? || state.Building? ==> id !in disk.candidates)
    && (state.Finalized? ==> id !in disk.prepared && id !in disk.mirroredGrants)
  }

  lemma FinalizedTidies(s: Store, plugin: PluginId, id: OperationId)
    requires Matching(s.table, plugin, id).Ok? && Matching(s.table, plugin, id).value.state.Finalized?
    ensures FinalizePlan(s, plugin, id).Ok? ==> FinalizePlan(s, plugin, id).value == MIRRORS
    ensures Run(s, plugin, id, MIRRORS[..3]).disk == WithoutMirrors(s.disk, id)
  {
    MirrorsPrefix(s, plugin, id, 3);
    assert MIRRORS[..3] == MIRRORS;
  }

  /** Abort goes through exactly from Accepted, Building, Built and Aborted. */
  lemma AbortAccepts(t: Table, plugin: PluginId, id: OperationId)
    ensures Abort(t, plugin, id).1.Ok? <==>
              Matching(t, plugin, id).Ok? && !Matching(t, plugin, id).value.state.Finalized? && !Matching(t, plugin, id).value.state.Failed?
    ensures Abort(t, plugin, id).1.Err? ==> Abort(t, plugin, id).0 == t
  {}

  function Least(a: nat, b: nat): nat {
    if a < b then a else b
  }

  lemma RenameFirst(budget: nat)
    requires budget > 0
    ensures ([Rename, WriteRecord] + MIRRORS)[..Least(budget, 5)] == [Rename] + ([WriteRecord] + MIRRORS)[..Least(budget - 1, 4)]
  {
  }

  datatype AdapterCall = RemoveImage(imageId: string) | CleanupTemporary(id: OperationId)

  /** What an abort asks of the build adapter, in order: each call only after the one before it succeeded. */
  function AbortCalls(artifact: Option<Artifact>, id: OperationId, imageRemoved: bool): seq<AdapterCall> {
    if artifact.None? then [CleanupTemporary(id)]
    else if imageRemoved then [RemoveImage(artifact.value.imageId), CleanupTemporary(id)]
    else [RemoveImage(artifact.value.imageId)]
  }

  /** Every call that an abort needs succeeds. */
  predicate AdapterAgrees(artifact: Option<Artifact>, imageRemoved: bool, cleaned: bool) {
    (artifact.Some? ==> imageRemoved) && cleaned
  }

  class InstallOperationManager {
    var installationId: string
    var operations: map<OperationId, StoredOperation>
    var nextSequence: nat
    var disk: Disk

    function Records(): Table
      reads this
    {
      Table(installationId, operations, nextSequence)
    }

    function View(): Store
      reads this
    {
      Store(Records(), disk)
    }

    constructor (installationId: string, disk: Disk)
      ensures View() == Store(Table(installationId, map[], 0), disk)
    {
      this.installationId := installationId;
      operations, nextSequence, this.disk := map[], 0, disk;
    }

    method BeginInstall(plugin: PluginId, id: OperationId) returns (r: Reply)
      modifies this`operations, this`nextSequence
      ensures (Records(), r) == Begin(old(Records()), plugin, id)
    {
      if id in operations {
        if operations[id].operation.pluginId != plugin { return Err(OperationIdMismatch); }
        return Ok(operations[id].operation);
      }
      if IsBusy(Records()) { return Err(BuildBusy); }
      if |Unacknowledged(Records())| >= MAX_UNACKNOWLEDGED { return Err(OperationCapacityReached); }
      var operation := Operation(id, plugin, Accepted, None, None, false);
      var sequence := nextSequence;
      nextSequence := SaturatingSucc(nextSequence);
      operations := operations[id := StoredOperation(installationId, operation, sequence)];
      r := Ok(operation);
    }

    /** Every unacknowledged operation of this installation, oldest first; the cut at 256 drops none. */
    method List(ghost order: seq<OperationId>) returns (listed: seq<Operation>)
      requires Safety.Numbered(Records(), order) && |Unacknowledged(Records())| <= MAX_UNACKNOWLEDGED
      ensures exists ids: seq<OperationId> :: IsFullList(Records(), ids) && listed == Summaries(Records(), ids)
      ensures nextSequence < U64_MAX ==> listed == Summaries(Records(), CreationOrder(Records(), order))
    {
      var chosen: seq<OperationId> := [];
      var rest := operations.Keys;
      while rest != {}
        invariant rest <= operations.Keys && Enumerates(Records(), rest, chosen)
        decreases rest
      {
        var id :| id in rest;
        EnumerateOne(Records(), rest, chosen, id);
        rest := rest - {id};
        if operations[id].installationId == installationId && !operations[id].operation.acknowledged {
          chosen := chosen + [id];
        }
      }
      var sorted := Sort(BySequence(Records()), chosen);
      SortFacts(Records(), chosen, order);
      NothingCut(Records(), sorted);
      var cut := sorted[..if |sorted| < MAX_LISTED then |sorted| else MAX_LISTED];
      assert cut == sorted[..|sorted|] == sorted;
      listed := Summaries(Records(), cut);
    }

    method Status(plugin: PluginId, id: OperationId) returns (r: Reply)
      ensures r == Matching(Records(), plugin, id)
    {
      if id !in operations { return Err(NotFound); }
      if operations[id].operation.pluginId != plugin { return Err(NotFound); }
      r := Ok(operations[id].operation);
    }

    method Persist(id: OperationId, operation: Operation)
      requires id in operations
      modifies this`operations
      ensures Records() == Write(old(Records()), id, operation)
    {
      operations := operations[id := operations[id].(operation := operation)];
    }

    method MoveTo(plugin: PluginId, id: OperationId, state: OperationState, errorCode: Option<string>) returns (r: Reply)
      modifies this`operations
      ensures (Records(), r) == SetState(old(Records()), plugin, id, state, errorCode)
    {
      r := Status(plugin, id);
      if r.Ok? {
        if r.value.state.IsTerminal() && r.value.state != state { return Err(InvalidTransition); }
        r := Ok(r.value.(state := state, errorCode := errorCode));
        Persist(id, r.value);
      }
    }

    method MarkBuilt(plugin: PluginId, id: OperationId, artifact: Artifact) returns (r: Reply)
      modifies this`operations
      ensures (Records(), r) == SetBuilt(old(Records()), plugin, id, artifact)
    {
      r := Status(plugin, id);
      if r.Ok? {
        if r.value.state != Building { return Err(InvalidTransition); }
        r := Ok(r.value.(state := Built, artifact := Some(artifact), errorCode := None));
        Persist(id, r.value);
      }
    }

    method MarkFailed(plugin: PluginId, id: OperationId, errorCode: string) returns (r: Reply)
      modifies this`operations
      ensures (Records(), r) == SetFailed(old(Records()), plugin, id, errorCode)
    {
      r := Status(plugin, id);
      if r.Ok? {
        r := Ok(r.value.(state := Failed, errorCode := Some(errorCode)));
        Persist(id, r.value);
      }
    }

    method AcknowledgeInstall(plugin: PluginId, id: OperationId) returns (r: Reply)
      modifies this`operations
      ensures (Records(), r) == Acknowledge(old(Records()), plugin, id)
    {
      r := Status(plugin, id);
      if r.Ok? {
        if !r.value.state.IsTerminal() { return Err(NotTerminal); }
        r := Ok(r.value.(acknowledged := true));
        Persist(id, r.value);
      }
    }

    /** The grant named by the prepared request goes first, the request that names it second. */
    method RemoveMirrors(ghost plugin: PluginId, id: OperationId, budget: nat) returns (stopped: bool)
      modifies this`disk
      ensures View() == Run(old(View()), plugin, id, MIRRORS[..Least(budget, 3)])
      ensures stopped <==> budget < 3
    {
      ghost var before := View();
      if budget == 0 { return true; }
      if id in disk.prepared && disk.prepared[id].Some? {
        disk := disk.(grants := disk.grants - {disk.prepared[id].value});
      }
      assert View() == Apply(before, plugin, id, RemoveGrant);
      RunAppend(before, plugin, id, [], RemoveGrant);
      assert MIRRORS[..1] == [] + [RemoveGrant];
      if budget == 1 { return true; }
      disk := disk.(prepared := disk.prepared - {id});
      RunAppend(before, plugin, id, MIRRORS[..1], RemovePrepared);
      assert MIRRORS[..2] == MIRRORS[..1] + [RemovePrepared];
      if budget == 2 { return true; }
      disk := disk.(mirroredGrants := disk.mirroredGrants - {id});
      RunAppend(before, plugin, id, MIRRORS[..2], RemoveMirror);
      assert MIRRORS[..3] == MIRRORS[..2] + [RemoveMirror];
      stopped := false;
    }

    method VerifyDirectory(directory: Directory, plugin: PluginId, id: OperationId, artifact: Artifact) returns (ok: bool)
      ensures ok == Attests(directory, installationId, plugin, id, artifact)
    {
      ok := directory.Some? && directory.value.installationId == installationId && directory.value.operationId == id
            && directory.value.pluginId == plugin && directory.value.artifact == artifact;
    }

    /** The part of finalize that follows the rename: the record, then the mirrors. */
    method RecordAndClean(plugin: PluginId, id: OperationId, budget: nat) returns (r: Option<Reply>)
      requires Matching(Records(), plugin, id).Ok? && Matching(Records(), plugin, id).value.state.Built?
      modifies this`operations, this`disk
      ensures View() == Run(old(View()), plugin, id, ([WriteRecord] + MIRRORS)[..Least(budget, 4)])
      ensures r.None? <==> budget < 4
      ensures r.Some? ==> r.value == Matching(Records(), plugin, id) && r.value.Ok? && r.value.value.state.Finalized?
    {
      if budget == 0 { return None; }
      ghost var before := View();
      var finalized := MoveTo(plugin, id, OperationState.Finalized, None);
      RunAppend(before, plugin, id, [], WriteRecord);
      assert [] + [WriteRecord] == [WriteRecord];
      ghost var middle := View();
      var stopped := RemoveMirrors(plugin, id, budget - 1);
      ghost var tail := MIRRORS[..Least(budget - 1, 3)];
      assert ([WriteRecord] + MIRRORS)[..Least(budget, 4)] == [WriteRecord] + tail;
      RunConcat(before, plugin, id, [WriteRecord], tail);
      RunMirrorsTable(middle, plugin, id, tail);
      r := if stopped then None else Some(finalized);
    }

    /**
     Finalize, with the process stopping after `budget` durable effects. It does exactly that
     prefix of its plan; a refusal changes nothing; None is a process that stopped.
     */
    method FinalizeInstall(plugin: PluginId, id: OperationId, budget: nat) returns (r: Option<Reply>)
      modifies this`operations, this`disk
      ensures FinalizePlan(old(View()), plugin, id).Err? ==>
                View() == old(View()) && r == Some(Err(FinalizePlan(old(View()), plugin, id).error))
      ensures FinalizePlan(old(View()), plugin, id).Ok? ==>
                var effects := FinalizePlan(old(View()), plugin, id).value;
                && View() == Run(old(View()), plugin, id, effects[..Least(budget, |effects|)])
                && (r.None? <==> budget < |effects|)
                && (r.Some? ==> r.value == Matching(Records(), plugin, id) && r.value.Ok? && r.value.value.state.Finalized?)
    {
      ghost var before := View();
      var status := Status(plugin, id);
      if status.Err? { return Some(status); }
      var operation := status.value;
      if operation.artifact.None? { return Some(Err(InvalidTransition)); }
      var wasInstalled := plugin in disk.installed;
      var directory := if wasInstalled then disk.installed[plugin] else if id in disk.candidates then disk.candidates[id] else None;
      var attested := VerifyDirectory(directory, plugin, id, operation.artifact.value);
      if !attested { return Some(Err(InstalledAttestationMismatch)); }
      if operation.state.Finalized? {
        if !wasInstalled { return Some(Err(InstalledAttestationMismatch)); }
        var stopped := RemoveMirrors(plugin, id, budget);
        RunMirrorsTable(before, plugin, id, MIRRORS[..Least(budget, 3)]);
        return if stopped then None else Some(status);
      }
      if !operation.state.Built? { return Some(Err(InvalidTransition)); }
      if wasInstalled {
        if id in disk.candidates { return Some(Err(InstalledAttestationMismatch)); }
        r := RecordAndClean(plugin, id, budget);
      } else {
        if budget == 0 { return None; }
        disk := disk.(installed := disk.installed[plugin := disk.candidates[id]], candidates := disk.candidates - {id});
        RunAppend(before, plugin, id, [], Rename);
        assert [] + [Rename] == [Rename];
        r := RecordAndClean(plugin, id, budget - 1);
        RunConcat(before, plugin, id, [Rename], ([WriteRecord] + MIRRORS)[..Least(budget - 1, 4)]);
        RenameFirst(budget);
      }
    }

    /**
     Abort: the record moves first, then candidate and mirrors go, then the adapter is asked to
     remove the image and, if that went well, the temporary resources. A refused move leaves the disk alone
     and asks for nothing. `imageRemoved` and `cleaned` are the adapter's answers, `asked` is what it was asked.
     */
    method AbortInstall(plugin: PluginId, id: OperationId, imageRemoved: bool, cleaned: bool)
      returns (r: Reply, asked: seq<AdapterCall>)
      modifies this`operations, this`disk
      ensures Records() == Abort(old(Records()), plugin, id).0
      ensures Abort(old(Records()), plugin, id).1.Err? ==> disk == old(disk) && r.Err? && asked == []
      ensures Abort(old(Records()), plugin, id).1.Ok? ==>
                && disk == WithoutMirrors(old(disk).(candidates := old(disk).candidates - {id}), id)
                && asked == AbortCalls(old(operations)[id].operation.artifact, id, imageRemoved)
                && r == if AdapterAgrees(old(operations)[id].operation.artifact, imageRemoved, cleaned) then Abort(old(Records()), plugin, id).1 else Err(AdapterFailed)
    {
      asked := [];
      var status := Status(plugin, id);
      if status.Err? { return status, asked; }
      var operation := status.value;
      if operation.state.Finalized? {
        if operation.artifact.None? { return Err(InvalidTransition), asked; }
        var directory := if plugin in disk.installed then disk.installed[plugin] else None;
        var attested := VerifyDirectory(directory, plugin, id, operation.artifact.value);
        if !attested { return Err(InstalledAttestationMismatch), asked; }
      }
      var aborted := status;
      if !operation.state.Aborted? {
        aborted := MoveTo(plugin, id, Aborted, operation.errorCode);
        if aborted.Err? { return aborted, asked; }
      }
      disk := disk.(candidates := disk.candidates - {id});
      MirrorsPrefix(View(), plugin, id, 3);
      assert MIRRORS[..3] == MIRRORS;
      var stopped := RemoveMirrors(plugin, id, 3);
      if operation.artifact.Some? {
        asked := asked + [RemoveImage(operation.artifact.value.imageId)];
        if !imageRemoved { return Err(AdapterFailed), asked; }
      }
      asked := asked + [CleanupTemporary(id)];
      if !cleaned { return Err(AdapterFailed), asked; }
      r := aborted;
    }

    /** Drop the acknowledged terminal records whose retention has run out. */
    method CleanupAcknowledged(expired: OperationId -> bool)
      modifies this`operations
      ensures operations == map id | id in old(operations)
                && !(old(operations)[id].operation.acknowledged && old(operations)[id].operation.state.IsTerminal() && expired(id))
                :: old(operations)[id]
    {
      var gone := set id | id in operations
        && operations[id].operation.acknowledged && operations[id].operation.state.IsTerminal() && expired(id);
      var kept := operations;
      var rest := gone;
      while rest != {}
        invariant rest <= gone
        invariant kept == operations - (gone - rest)
        decreases rest
      {
        var id :| id in rest;
        rest := rest - {id};
        kept := kept - {id};
      }
      operations := kept;
    }

    /** What a restart does about one operation. */
    method ReconcileOne(id: OperationId, cleaned: bool) returns (ok: bool)
      requires id in operations
      modifies this`operations, this`disk
      ensures operations == old(operations)[id := AfterRestart(old(operations)[id])]
      ensures OnlyRemoved(old(disk), disk)
      ensures ok ==> Tidied(disk, id, old(operations)[id].operation.state)
    {
      var operation := operations[id].operation;
      if operation.state.Accepted? || operation.state.Building? {
        var failed := MarkFailed(operation.pluginId, id, RESTART_ERROR_CODE);
        disk := disk.(candidates := disk.candidates - {id});
        return cleaned;
      }
      if operation.state.Finalized? {
        FinalizedTidies(View(), operation.pluginId, id);
        FinalizedStays(View(), operation.pluginId, id);
        var finalized := FinalizeInstall(operation.pluginId, id, 3);
        return finalized.Some? && finalized.value.Ok?;
      }
      ok := true;
    }

    /**
     Restart: every operation whose build died with the old process becomes Failed and loses its candidate, every
     Finalized one has its finalize completed, everything else stays. An error stops half way.
     */
    method ReconcileRestart(cleaned: OperationId -> bool) returns (ok: bool)
      modifies this`operations, this`disk
      ensures operations.Keys == old(operations).Keys
      ensures forall id :: id in operations ==>
                operations[id] == old(operations)[id] || operations[id] == AfterRestart(old(operations)[id])
      ensures ok ==> forall id :: id in operations ==> operations[id] == AfterRestart(old(operations)[id])
      ensures OnlyRemoved(old(disk), disk)
      ensures ok ==> forall id :: id in operations ==> Tidied(disk, id, old(operations)[id].operation.state)
    {
      var rest := operations.Keys;
      while rest != {}
        invariant rest <= operations.Keys == old(operations).Keys
        invariant forall id :: id in operations ==>
                    operations[id] == if id in rest then old(operations)[id] else AfterRestart(old(operations)[id])
        invariant OnlyRemoved(old(disk), disk)
        invariant forall id :: id in operations && id !in rest ==> Tidied(disk, id, old(operations)[id].operation.state)
        decreases rest
      {
        var id :| id in rest;
        ghost var before := disk;
        var reconciled := ReconcileOne(id, cleaned(id));
        assert OnlyRemoved(before, disk);
        if !reconciled { return false; }
        rest := rest - {id};
      }
      ok := true;
    }
  }

  lemma EnumerateOne(t: Table, rest: set<OperationId>, ids: seq<OperationId>, id: OperationId)
    requires Enumerates(t, rest, ids) && id in rest
    ensures Enumerates(t, rest - {id}, if IsListed(t, id) then ids + [id] else ids)
  {}

  lemma NothingCut(t: Table, ids: seq<OperationId>)
    requires Enumerates(t, {}, ids) && |Unacknowledged(t)| <= MAX_UNACKNOWLEDGED
    ensures |ids| <= MAX_LISTED
  {
    DistinctSize(ids, Unacknowledged(t));
  }

  /** Sorting the listed operations by number, from whatever enumeration, gives the creation order. */
  lemma SortFacts(t: Table, chosen: seq<OperationId>, order: seq<OperationId>)
    requires Safety.Numbered(t, order) && Enumerates(t, {}, chosen)
    ensures IsFullList(t, Sort(BySequence(t), chosen))
    ensures t.nextSequence < U64_MAX ==> Sort(BySequence(t), chosen) == CreationOrder(t, order)
  {
    var sorted := Sort(BySequence(t), chosen);
    SortSorted(BySequence(t), chosen);
    SameElements(chosen, sorted);
    DistinctPermutation(chosen, sorted);
    CreationOrderFacts(t, order);
    DistinctSameMultiset(chosen, CreationOrder(t, order));
    if t.nextSequence < U64_MAX {
      SortedUnique(BySequence(t), CreationOrder(t, order), sorted);
    }
  }
}
