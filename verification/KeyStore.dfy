/**
 The master-key bootstrap over a file system that can lose everything not yet synced.

 `entries` is the directory as system calls see it. `survivors` holds, for each name, every
 entry a power failure may bring back: the last synced one and each one written since.
 An inode's bytes are safe once the file itself has been synced.
 */
module KeyStores {
  import opened Collections

  type Inode = nat
  type KeyBytes = seq<Byte>

  const MASTER_KEY_BYTES: nat := 32

  datatype Name = Key | Pending

  datatype Fs = Fs(entries: map<Name, Inode>, survivors: map<Name, set<Option<Inode>>>,
                   contents: map<Inode, seq<Byte>>, synced: set<Inode>, nextInode: Inode)

  function Entry(fs: Fs, n: Name): Option<Inode> {
    if n in fs.entries then Some(fs.entries[n]) else None
  }

  /** The hard-link count: how many names lead to the inode. */
  function Links(fs: Fs, i: Inode): nat {
    (if Entry(fs, Key) == Some(i) then 1 else 0) + (if Entry(fs, Pending) == Some(i) then 1 else 0)
  }

  // ----- what each system call does when it works -----

  function Created(fs: Fs, n: Name): Fs
    requires n in fs.survivors
  {
    var i := fs.nextInode;
    fs.(entries := fs.entries[n := i], survivors := fs.survivors[n := fs.survivors[n] + {Some(i)}],
        contents := fs.contents[i := []], nextInode := i + 1)
  }

  function Written(fs: Fs, i: Inode, bytes: seq<Byte>): Fs {
    fs.(contents := fs.contents[i := bytes], synced := fs.synced - {i})
  }

  function FileSynced(fs: Fs, i: Inode): Fs {
    fs.(synced := fs.synced + {i})
  }

  function DirectorySynced(fs: Fs): Fs {
    fs.(survivors := map n: Name | n in fs.survivors :: {Entry(fs, n)})
  }

  function Linked(fs: Fs, source: Name, target: Name): Fs
    requires source in fs.entries && target in fs.survivors
  {
    fs.(entries := fs.entries[target := fs.entries[source]],
        survivors := fs.survivors[target := fs.survivors[target] + {Some(fs.entries[source])}])
  }

  function Unlinked(fs: Fs, n: Name): Fs
    requires n in fs.survivors
  {
    fs.(entries := fs.entries - {n}, survivors := fs.survivors[n := fs.survivors[n] + {None}])
  }

  /** Power fails: each name comes back as one of its survivors, and unsynced bytes as anything. */
  ghost predicate PowerLoss(fs: Fs, fs': Fs) {
    && (forall n :: n in fs.survivors ==> Entry(fs', n) in fs.survivors[n])
    && fs'.survivors.Keys == fs.survivors.Keys
    && (forall n :: n in fs'.survivors ==> fs'.survivors[n] == {Entry(fs', n)})
    && fs'.contents.Keys == fs.contents.Keys
    && (forall i :: i in fs.synced && i in fs.contents ==> fs'.contents[i] == fs.contents[i])
    && fs'.synced == fs'.contents.Keys
    && fs'.nextInode == fs.nextInode
  }

  // ----- the invariant -----

  ghost predicate FsInv(fs: Fs) {
    && fs.survivors.Keys == {Key, Pending}
    && (forall n :: n in fs.survivors ==> Entry(fs, n) in fs.survivors[n])
    && (forall n, i :: n in fs.survivors && Some(i) in fs.survivors[n] ==> i in fs.contents)
    && (forall i :: i in fs.contents ==> i < fs.nextInode)
    && (forall i :: Some(i) in fs.survivors[Key] ==> i in fs.synced && |fs.contents[i]| == MASTER_KEY_BYTES)
    && (Key !in fs.entries ==> fs.survivors[Key] == {None})
    && (forall i :: Some(i) in fs.survivors[Key] ==> Entry(fs, Key) == Some(i))
  }

  /** Whatever fails next, the key file will hold these bytes. */
  ghost predicate KeyDurable(fs: Fs, key: KeyBytes) {
    && Key in fs.entries && Key in fs.survivors && fs.survivors[Key] == {Some(fs.entries[Key])}
    && fs.entries[Key] in fs.contents && fs.entries[Key] in fs.synced && fs.contents[fs.entries[Key]] == key
  }

  /** One or more system calls later: still sound, and a durable key is still the same. */
  ghost predicate Keeps(fs: Fs, fs': Fs) {
    FsInv(fs) ==> FsInv(fs') && forall key :: KeyDurable(fs, key) ==> KeyDurable(fs', key)
  }

  lemma UnlinkKeeps(fs: Fs)
    requires Pending in fs.survivors
    ensures Keeps(fs, Unlinked(fs, Pending))
  {}

  lemma CreateKeeps(fs: Fs)
    requires Pending in fs.survivors && Pending !in fs.entries
    ensures Keeps(fs, Created(fs, Pending))
  {}

  lemma WriteKeeps(fs: Fs, i: Inode, bytes: seq<Byte>)
    requires Key in fs.survivors && Some(i) !in fs.survivors[Key] && i in fs.contents
    ensures Keeps(fs, Written(fs, i, bytes))
  {}

  lemma SyncKeeps(fs: Fs, i: Inode)
    ensures Keeps(fs, FileSynced(fs, i)) && Keeps(fs, DirectorySynced(fs))
  {}

  lemma LinkKeeps(fs: Fs)
    requires Pending in fs.entries && Key in fs.survivors && Key !in fs.entries
    requires fs.entries[Pending] in fs.contents && fs.entries[Pending] in fs.synced
    requires |fs.contents[fs.entries[Pending]]| == MASTER_KEY_BYTES
    ensures Keeps(fs, Linked(fs, Pending, Key))
  {}

  lemma PowerLossKeeps(fs: Fs, fs': Fs)
    requires PowerLoss(fs, fs')
    ensures Keeps(fs, fs')
  {}

  // ----- the program -----

  /** What the surroundings do to one system call; a torn write leaves a prefix behind. */
  datatype Fate = Works | Fails(torn: nat) | Stops(torn: nat)

  datatype SysResult = Done | Refused | Stopped

  datatype Outcome = Returned(key: KeyBytes) | Error | ProcessStopped

  function AsOutcome(r: SysResult): Outcome
    requires !r.Done?
  {
    if r.Stopped? then ProcessStopped else Error
  }

  function Torn(bytes: seq<Byte>, torn: nat): seq<Byte> {
    if torn < |bytes| then bytes[..torn] else bytes
  }

  /** One bootstrap at a time, as the lock file ensures; `plan` decides the fate of its system calls. */
  class KeyStore {
    var fs: Fs
    var calls: nat
    const plan: nat -> Fate

    constructor (fs: Fs, plan: nat -> Fate)
      ensures this.fs == fs && this.plan == plan && calls == 0
    {
      this.fs, this.plan, calls := fs, plan, 0;
    }

    /** No system call made from now on is disturbed. */
    ghost predicate Undisturbed()
      reads this`calls
    {
      forall n :: calls <= n ==> plan(n) == Works
    }

    /** The next call happens or not, as the plan says. */
    method Attempt() returns (r: SysResult)
      modifies this`calls
      ensures calls == old(calls) + 1
      ensures r == match plan(old(calls)) { case Works => Done case Fails(_) => Refused case Stops(_) => Stopped }
    {
      r := match plan(calls) case Works => Done case Fails(_) => Refused case Stops(_) => Stopped;
      calls := calls + 1;
    }

    method SyncDirectory() returns (r: SysResult)
      modifies this`fs, this`calls
      ensures calls == old(calls) + 1 && (plan(old(calls)) == Works ==> r.Done?)
      ensures fs == if r.Done? then DirectorySynced(old(fs)) else old(fs)
    {
      r := Attempt();
      if r.Done? { fs := DirectorySynced(fs); }
    }

    method UnlinkPending() returns (r: SysResult)
      requires FsInv(fs)
      modifies this`fs, this`calls
      ensures calls == old(calls) + 1 && (plan(old(calls)) == Works ==> r.Done?)
      ensures fs == if r.Done? then Unlinked(old(fs), Pending) else old(fs)
    {
      r := Attempt();
      if r.Done? { fs := Unlinked(fs, Pending); }
    }

    /** Remove a leftover pending file, and make its removal last. */
    method CleanupPending() returns (r: SysResult)
      requires FsInv(fs)
      modifies this`fs, this`calls
      ensures Keeps(old(fs), fs)
      ensures r.Done? ==> Pending !in fs.entries
      ensures Entry(fs, Key) == Entry(old(fs), Key) && fs.contents == old(fs).contents
      ensures old(Undisturbed()) ==> r.Done? && Undisturbed()
    {
      r := Done;
      if Pending in fs.entries {
        UnlinkKeeps(fs);
        r := UnlinkPending();
        if r.Done? {
          SyncKeeps(fs, 0);
          r := SyncDirectory();
        }
      }
    }

    /** Fill and sync the new pending file; on success its bytes and its entry are safe. */
    method PreparePending(i: Inode, key: KeyBytes) returns (r: SysResult)
      requires FsInv(fs) && |key| == MASTER_KEY_BYTES
      requires Entry(fs, Pending) == Some(i) && Some(i) !in fs.survivors[Key]
      modifies this`fs, this`calls
      ensures Keeps(old(fs), fs) && fs.entries == old(fs).entries
      ensures r.Done? ==> i in fs.synced && i in fs.contents && fs.contents[i] == key
      ensures old(Undisturbed()) ==> r.Done? && Undisturbed()
    {
      var fate := plan(calls);
      r := Attempt();
      var written := if fate.Works? then key else Torn(key, fate.torn);
      WriteKeeps(fs, i, written);
      fs := Written(fs, i, written);
      if !r.Done? { return; }
      r := Attempt();
      if !r.Done? { return; }
      SyncKeeps(fs, i);
      fs := FileSynced(fs, i);
      SyncKeeps(fs, i);
      r := SyncDirectory();
    }

    /** Read the key back: exactly one link, exactly 32 bytes. */
    method LoadMasterKey() returns (r: Outcome)
      modifies this`calls
      ensures FsInv(fs) && r.Returned? ==> Key in fs.entries && r.key == fs.contents[fs.entries[Key]]
      ensures FsInv(fs) && Key in fs.entries && Pending !in fs.entries && old(Undisturbed()) ==> r.Returned?
    {
      var found := Attempt();
      if !found.Done? { return AsOutcome(found); }
      if Key !in fs.entries { return Error; }
      var i := fs.entries[Key];
      if Links(fs, i) != 1 || i !in fs.contents { return Error; }
      if |fs.contents[i]| != MASTER_KEY_BYTES { return Error; }
      r := Returned(fs.contents[i]);
    }

    /** Take the error path of `create_master_key`: drop the pending file, then report. */
    method Discard(cause: SysResult) returns (r: Outcome)
      requires FsInv(fs) && !cause.Done?
      modifies this`fs, this`calls
      ensures Keeps(old(fs), fs) && !r.Returned?
    {
      if cause.Stopped? { return ProcessStopped; }
      var cleaned := CleanupPending();
      r := if cleaned.Done? then Error else AsOutcome(cleaned);
    }

    /** Sync the directory before trusting what it shows, then read the key. */
    method LoadSynced() returns (r: Outcome)
      requires FsInv(fs)
      modifies this`fs, this`calls
      ensures CallPost(old(fs), fs, r)
      ensures r.Returned? ==> Key in old(fs).entries && r.key == old(fs).contents[old(fs).entries[Key]]
      ensures old(Undisturbed()) && Key in old(fs).entries && Pending !in old(fs).entries ==> r.Returned?
    {
      SyncKeeps(fs, 0);
      var synced := SyncDirectory();
      if !synced.Done? { return AsOutcome(synced); }
      r := LoadMasterKey();
    }

    /** Link the prepared file to its final name, drop the pending one, make both changes last. */
    method Publish(i: Inode) returns (r: Outcome)
      requires FsInv(fs) && Entry(fs, Pending) == Some(i) && i in fs.synced && |fs.contents[i]| == MASTER_KEY_BYTES
      requires Key !in fs.entries
      modifies this`fs, this`calls
      ensures Keeps(old(fs), fs)
      ensures r.Returned? ==> r.key == old(fs).contents[i] && KeyDurable(fs, r.key)
      ensures old(Undisturbed()) ==> r.Returned?
    {
      LinkKeeps(fs);
      fs := Linked(fs, Pending, Key);
      UnlinkKeeps(fs);
      var unlinked := UnlinkPending();
      if !unlinked.Done? { return AsOutcome(unlinked); }
      SyncKeeps(fs, i);
      var synced := SyncDirectory();
      if !synced.Done? { return AsOutcome(synced); }
      if Entry(fs, Key) != Some(i) || Links(fs, i) != 1 { return Error; }
      r := Returned(fs.contents[i]);
    }

    /** Create, fill and sync the pending file; a failure has already been cleaned up after. */
    method CreatePending(random: KeyBytes) returns (i: Inode, failure: Option<Outcome>)
      requires FsInv(fs) && Pending !in fs.entries && |random| == MASTER_KEY_BYTES
      modifies this`fs, this`calls
      ensures FsInv(fs) && Keeps(old(fs), fs)
      ensures failure.Some? ==> !failure.value.Returned?
      ensures failure.None? ==>
                && Entry(fs, Pending) == Some(i) && i in fs.synced && fs.contents[i] == random
                && Entry(fs, Key) == Entry(old(fs), Key)
      ensures old(Undisturbed()) ==> failure.None? && Undisturbed()
    {
      i := fs.nextInode;
      var created := Attempt();
      if !created.Done? { return i, Some(AsOutcome(created)); }
      CreateKeeps(fs);
      fs := Created(fs, Pending);
      var prepared := PreparePending(i, random);
      failure := None;
      if !prepared.Done? {
        var r := Discard(prepared);
        failure := Some(r);
      }
    }

    /** Try to take the final name; if somebody holds it already, use theirs. */
    method TakeName(i: Inode) returns (r: Outcome)
      requires FsInv(fs) && Entry(fs, Pending) == Some(i) && i in fs.synced && |fs.contents[i]| == MASTER_KEY_BYTES
      modifies this`fs, this`calls
      ensures CallPost(old(fs), fs, r)
      ensures r.Returned? && Key !in old(fs).entries ==> r.key == old(fs).contents[i]
      ensures old(Undisturbed()) ==> r.Returned?
    {
      var linked := Attempt();
      if !linked.Done? {
        r := Discard(linked);
      } else if Key in fs.entries {
        var cleaned := CleanupPending();
        if !cleaned.Done? { return AsOutcome(cleaned); }
        r := LoadSynced();
      } else {
        r := Publish(i);
      }
    }

    method CreateMasterKey(random: KeyBytes) returns (r: Outcome)
      requires FsInv(fs) && Pending !in fs.entries && |random| == MASTER_KEY_BYTES
      modifies this`fs, this`calls
      ensures CallPost(old(fs), fs, r)
      ensures r.Returned? && Key !in old(fs).entries ==> r.key == random
      ensures old(Undisturbed()) ==> r.Returned?
    {
      var i, failure := CreatePending(random);
      if failure.Some? { return failure.value; }
      r := TakeName(i);
    }

    /** The whole bootstrap: clean up, then load what is there or create what is not. */
    method LoadOrCreateMasterKey(random: KeyBytes) returns (r: Outcome)
      requires FsInv(fs) && |random| == MASTER_KEY_BYTES
      modifies this`fs, this`calls
      ensures CallPost(old(fs), fs, r)
      ensures r.Returned? ==> r.key == if Key in old(fs).entries then old(fs).contents[old(fs).entries[Key]] else random
      ensures old(Undisturbed()) ==> r.Returned?
    {
      var cleaned := CleanupPending();
      if !cleaned.Done? { return AsOutcome(cleaned); }
      var looked := Attempt();
      if !looked.Done? { return AsOutcome(looked); }
      if Key in fs.entries {
        r := LoadSynced();
      } else {
        r := CreateMasterKey(random);
      }
    }
  }

  /** What one call promises, however it ends. */
  ghost predicate CallPost(fs: Fs, fs': Fs, r: Outcome) {
    Keeps(fs, fs') && (FsInv(fs) && r.Returned? ==> KeyDurable(fs', r.key))
  }

  // ----- any number of calls, with power failures between and during them -----

  datatype Happening = Call(r: Outcome) | PowerFailure

  ghost predicate Happens(fs: Fs, h: Happening, fs': Fs) {
    match h
    case Call(r) => CallPost(fs, fs', r)
    case PowerFailure => PowerLoss(fs, fs')
  }

  ghost predicate IsHistory(states: seq<Fs>, events: seq<Happening>) {
    && |states| == |events| + 1
    && FsInv(states[0])
    && forall i :: 0 <= i < |events| ==> Happens(states[i], events[i], states[i + 1])
  }

  lemma {:induction false} HistoryInv(states: seq<Fs>, events: seq<Happening>, i: nat)
    requires IsHistory(states, events) && i < |states|
    ensures FsInv(states[i])
  {
    if i > 0 {
      HistoryInv(states, events, i - 1);
      assert Happens(states[i - 1], events[i - 1], states[i]);
      if events[i - 1].PowerFailure? { PowerLossKeeps(states[i - 1], states[i]); }
    }
  }

  lemma {:induction false} DurableForever(states: seq<Fs>, events: seq<Happening>, key: KeyBytes, i: nat, j: nat)
    requires IsHistory(states, events) && i <= j < |states| && KeyDurable(states[i], key)
    ensures KeyDurable(states[j], key)
    decreases j - i
  {
    if i < j {
      DurableForever(states, events, key, i, j - 1);
      HistoryInv(states, events, j - 1);
      assert Happens(states[j - 1], events[j - 1], states[j]);
      if events[j - 1].PowerFailure? { PowerLossKeeps(states[j - 1], states[j]); }
    }
  }

  /** Any two calls that return a key return the same key. */
  lemma SameKeyForever(states: seq<Fs>, events: seq<Happening>, i: nat, j: nat)
    requires IsHistory(states, events) && i < j < |events|
    requires events[i].Call? && events[i].r.Returned? && events[j].Call? && events[j].r.Returned?
    ensures events[i].r.key == events[j].r.key
  {
    HistoryInv(states, events, i);
    HistoryInv(states, events, j);
    assert Happens(states[i], events[i], states[i + 1]) && Happens(states[j], events[j], states[j + 1]);
    DurableForever(states, events, events[i].r.key, i + 1, j + 1);
  }
}
