/**
 Committing a refreshed credential: temporary cookie-jar sessions in memory, and a credential
 table that accepts an update only at the revision the session was opened for.
 */
module RefreshCommit {
  import opened Collections

  type SessionId = nat
  type CredentialId = nat
  type Revision = nat
  type Time = nat
  type TaskId = nat

  const MAX_SESSIONS: nat := 64

  /** Ten minutes, in seconds. */
  const MAX_SESSION_TTL: Time := 10 * 60

  const I64_MAX: nat := 0x7FFF_FFFF_FFFF_FFFF

  datatype Purpose = Login | Refresh(credential: CredentialId, expected: Revision)
  datatype Binding = Binding(plugin: string, scope: string, purpose: Purpose)
  datatype SessionState = Active | Committing
  datatype Session = Session(binding: Binding, expiresAt: Time, state: SessionState)

  datatype JarError = InvalidBinding | OriginDenied | NotFound | Expired | BindingMismatch | Busy | PurposeMismatch | CapacityReached | SnapshotFailed

  type Sessions = map<SessionId, Session>

  // ----- the jar operations -----

  function Unexpired(sessions: Sessions, now: Time): Sessions {
    map id | id in sessions && sessions[id].expiresAt > now :: sessions[id]
  }

  /** A session past its time is dropped by whoever touches it. */
  function Live(sessions: Sessions, id: SessionId, now: Time): (Sessions, Result<Session, JarError>) {
    if id !in sessions then (sessions, Err(NotFound))
    else if sessions[id].expiresAt <= now then (sessions - {id}, Err(Expired))
    else (sessions, Ok(sessions[id]))
  }

  function Create(sessions: Sessions, id: SessionId, binding: Binding, now: Time, ttl: nat): (Sessions, Result<SessionId, JarError>) {
    var kept := Unexpired(sessions, now);
    if ttl > MAX_SESSION_TTL then (sessions, Err(InvalidBinding))
    else if |kept| >= MAX_SESSIONS then (kept, Err(CapacityReached))
    else (kept[id := Session(binding, now + ttl, Active)], Ok(id))
  }

  /** `originsOk`: the selected origins are well formed and all of the binding. */
  function BeginCommit(sessions: Sessions, id: SessionId, binding: Binding, now: Time, originsOk: bool, snapshotOk: bool)
    : (Sessions, Result<Purpose, JarError>)
  {
    var (kept, r) := Live(sessions, id, now);
    if !originsOk then (sessions, Err(OriginDenied))
    else if r.Err? then (kept, Err(r.error))
    else if r.value.binding != binding then (kept, Err(BindingMismatch))
    else if r.value.state != Active then (kept, Err(Busy))
    else if !binding.purpose.Refresh? then (kept, Err(PurposeMismatch))
    else if !snapshotOk then (kept, Err(SnapshotFailed))
    else (kept[id := r.value.(state := Committing)], Ok(binding.purpose))
  }

  function Finish(sessions: Sessions, id: SessionId, retryable: bool): (Sessions, Result<(), JarError>) {
    if id !in sessions then (sessions, Err(NotFound))
    else if retryable then (sessions[id := sessions[id].(state := Active)], Ok(()))
    else (sessions - {id}, Ok(()))
  }

  function Cancel(sessions: Sessions, id: SessionId, binding: Binding, now: Time): (Sessions, Result<(), JarError>) {
    var (kept, r) := Live(sessions, id, now);
    if r.Err? then (kept, Err(r.error))
    else if r.value.binding != binding then (kept, Err(BindingMismatch))
    else (kept - {id}, Ok(()))
  }

  class TemporaryCookieJars {
    var sessions: Sessions

    ghost predicate Valid()
      reads this
    {
      |sessions| <= MAX_SESSIONS
    }

    constructor ()
      ensures Valid() && sessions == map[]
    {
      sessions := map[];
    }

    method CreateJar(id: SessionId, binding: Binding, now: Time, ttl: nat) returns (r: Result<SessionId, JarError>)
      requires Valid() && id !in Unexpired(sessions, now)
      modifies this
      ensures Valid() && (sessions, r) == Create(old(sessions), id, binding, now, ttl)
    {
      if ttl > MAX_SESSION_TTL { return Err(InvalidBinding); }
      sessions := Unexpired(sessions, now);
      if |sessions| >= MAX_SESSIONS {
        SizeOfPart(old(sessions), sessions);
        return Err(CapacityReached);
      }
      sessions := sessions[id := Session(binding, now + ttl, Active)];
      r := Ok(id);
    }

    method LiveSession(id: SessionId, now: Time) returns (r: Result<Session, JarError>)
      requires Valid()
      modifies this
      ensures Valid() && (sessions, r) == Live(old(sessions), id, now)
    {
      if id !in sessions { return Err(NotFound); }
      r := Ok(sessions[id]);
      if sessions[id].expiresAt <= now {
        SizeOfPart(sessions, sessions - {id});
        sessions := sessions - {id};
        r := Err(Expired);
      }
    }

    method BeginRefreshCommit(id: SessionId, binding: Binding, now: Time, originsOk: bool, snapshotOk: bool) returns (r: Result<Purpose, JarError>)
      requires Valid()
      modifies this
      ensures Valid() && (sessions, r) == BeginCommit(old(sessions), id, binding, now, originsOk, snapshotOk)
    {
      if !originsOk { return Err(OriginDenied); }
      var live := LiveSession(id, now);
      if live.Err? { return Err(live.error); }
      var session := live.value;
      if session.binding != binding { return Err(BindingMismatch); }
      if session.state != Active { return Err(Busy); }
      if !binding.purpose.Refresh? { return Err(PurposeMismatch); }
      if !snapshotOk { return Err(SnapshotFailed); }
      assert sessions.Keys == sessions[id := session.(state := Committing)].Keys;
      sessions := sessions[id := session.(state := Committing)];
      r := Ok(binding.purpose);
    }

    method CancelJar(id: SessionId, binding: Binding, now: Time) returns (r: Result<(), JarError>)
      requires Valid()
      modifies this
      ensures Valid() && (sessions, r) == Cancel(old(sessions), id, binding, now)
    {
      var live := LiveSession(id, now);
      if live.Err? { return Err(live.error); }
      if live.value.binding != binding { return Err(BindingMismatch); }
      SizeOfPart(sessions, sessions - {id});
      sessions := sessions - {id};
      r := Ok(());
    }

    method FinishRefresh(id: SessionId, retryable: bool) returns (r: Result<(), JarError>)
      requires Valid()
      modifies this
      ensures Valid() && (sessions, r) == Finish(old(sessions), id, retryable)
    {
      if id !in sessions { return Err(NotFound); }
      if retryable {
        assert sessions.Keys == sessions[id := sessions[id].(state := Active)].Keys;
        sessions := sessions[id := sessions[id].(state := Active)];
      } else {
        SizeOfPart(sessions, sessions - {id});
        sessions := sessions - {id};
      }
      r := Ok(());
    }
  }

  lemma SizeOfPart<K, V>(m: map<K, V>, part: map<K, V>)
    requires part.Keys <= m.Keys
    ensures |part| <= |m|
  {
    SubsetSize(part.Keys, m.Keys);
  }

  // ----- all sessions, tasks and writers together -----

  datatype PortResult = Committed | Conflict | Unavailable | OtherFailure

  /** A commit task: about to read the credential, about to write it, or about to close its session. */
  datatype Task =
    | Reading(id: SessionId, credential: CredentialId, expected: Revision)
    | Writing(id: SessionId, credential: CredentialId, expected: Revision)
    | Reporting(id: SessionId, result: PortResult)

  datatype Commit = Commit(session: SessionId, credential: CredentialId, revision: Revision)

  /** `purposes`, `issued` and `log` are history: every session and credential ever made, every commit that took effect. */
  datatype State = State(sessions: Sessions, now: Time, credentials: map<CredentialId, Revision>, tasks: map<TaskId, Task>,
                         purposes: map<SessionId, Purpose>, issued: set<CredentialId>, log: seq<Commit>)

  ghost predicate Init(s: State) {
    && s.sessions == map[] && s.credentials == map[] && s.tasks == map[] && s.purposes == map[] && s.issued == {} && s.log == []
  }

  datatype Event =
    | OpenJar(id: SessionId, binding: Binding, ttl: nat)
    | StartCommit(t: TaskId, id: SessionId, binding: Binding, originsOk: bool, snapshotOk: bool)
    | ReadCredential(t: TaskId, reachable: bool)
    | WriteCredential(t: TaskId, reachable: bool, answered: bool)
    | CloseSession(t: TaskId)
    | DropTask(t: TaskId)
    | CancelJar(id: SessionId, binding: Binding)
    | Wait(later: Time)
    | OtherWriter(credential: CredentialId)
    | IssueCredential(credential: CredentialId)
    | DeleteCredential(credential: CredentialId)
    | Restart

  /** The vault compares the revision it read before it builds the update. */
  function AfterRead(s: State, task: Task, reachable: bool): Task
    requires task.Reading?
  {
    if !reachable then Reporting(task.id, Unavailable)
    else if task.credential !in s.credentials then Reporting(task.id, OtherFailure)
    else if s.credentials[task.credential] != task.expected then Reporting(task.id, Conflict)
    else Writing(task.id, task.credential, task.expected)
  }

  /** The table's compare-and-set: it matches on the credential and its revision, in one statement. */
  predicate Matches(s: State, task: Task)
    requires task.Writing?
  {
    task.credential in s.credentials && s.credentials[task.credential] == task.expected && task.expected < I64_MAX
  }

  function AfterWrite(s: State, t: TaskId, reachable: bool, answered: bool): State
    requires t in s.tasks && s.tasks[t].Writing?
  {
    var Writing(id, credential, expected) := s.tasks[t];
    if !reachable || (credential in s.credentials && s.credentials[credential] == expected && expected >= I64_MAX)
    then s.(tasks := s.tasks[t := Reporting(id, Unavailable)])
    else if Matches(s, s.tasks[t]) then
      s.(credentials := s.credentials[credential := expected + 1],
         tasks := s.tasks[t := Reporting(id, if answered then Committed else Unavailable)],
         log := s.log + [Commit(id, credential, expected)])
    else s.(tasks := s.tasks[t := Reporting(id, if credential in s.credentials then Conflict else OtherFailure)])
  }

  ghost predicate Step(s: State, e: Event, s': State) {
    match e
    case OpenJar(id, binding, ttl) =>
      && id !in s.purposes
      && var (sessions, r) := Create(s.sessions, id, binding, s.now, ttl);
         s' == s.(sessions := sessions, purposes := if r.Ok? then s.purposes[id := binding.purpose] else s.purposes)
    case StartCommit(t, id, binding, originsOk, snapshotOk) =>
      && t !in s.tasks
      && var (sessions, r) := BeginCommit(s.sessions, id, binding, s.now, originsOk, snapshotOk);
         s' == s.(sessions := sessions,
                  tasks := if r.Ok? && r.value.Refresh?
                           then s.tasks[t := Reading(id, r.value.credential, r.value.expected)] else s.tasks)
    case ReadCredential(t, reachable) =>
      && t in s.tasks && s.tasks[t].Reading?
      && s' == s.(tasks := s.tasks[t := AfterRead(s, s.tasks[t], reachable)])
    case WriteCredential(t, reachable, answered) =>
      && t in s.tasks && s.tasks[t].Writing?
      && s' == AfterWrite(s, t, reachable, answered)
    case CloseSession(t) =>
      && t in s.tasks && s.tasks[t].Reporting?
      && s' == s.(sessions := Finish(s.sessions, s.tasks[t].id, s.tasks[t].result.Unavailable?).0, tasks := s.tasks - {t})
    case DropTask(t) => s' == s.(tasks := s.tasks - {t})
    case CancelJar(id, binding) =>
      s' == s.(sessions := Cancel(s.sessions, id, binding, s.now).0)
    case Wait(later) => s.now <= later && s' == s.(now := later)
    case OtherWriter(credential) =>
      && credential in s.credentials
      && s' == s.(credentials := s.credentials[credential := s.credentials[credential] + 1])
    case IssueCredential(credential) =>
      && credential !in s.issued
      && s' == s.(credentials := s.credentials[credential := 1], issued := s.issued + {credential})
    case DeleteCredential(credential) => s' == s.(credentials := s.credentials - {credential})
    case Restart => s' == s.(sessions := map[], tasks := map[])
  }

  // ----- the invariant -----

  ghost predicate PurposesOk(s: State) {
    && (forall id :: id in s.sessions ==> id in s.purposes && s.purposes[id] == s.sessions[id].binding.purpose)
    && (forall t :: t in s.tasks ==> s.tasks[t].id in s.purposes)
    && (forall t :: t in s.tasks && !s.tasks[t].Reporting? ==>
          s.purposes[s.tasks[t].id] == Refresh(s.tasks[t].credential, s.tasks[t].expected))
  }

  /** A session that is being committed is committed by one task, and shows it. */
  ghost predicate OneTaskEach(s: State) {
    && (forall t, u :: t in s.tasks && u in s.tasks && s.tasks[t].id == s.tasks[u].id ==> t == u)
    && (forall t :: t in s.tasks && s.tasks[t].id in s.sessions ==> s.sessions[s.tasks[t].id].state.Committing?)
  }

  ghost predicate LogOk(s: State) {
    && (forall c :: c in s.credentials ==> c in s.issued)
    && (forall i :: 0 <= i < |s.log| ==>
          && s.log[i].credential in s.issued
          && (s.log[i].credential in s.credentials ==> s.log[i].revision < s.credentials[s.log[i].credential])
          && s.log[i].session in s.purposes
          && s.purposes[s.log[i].session] == Refresh(s.log[i].credential, s.log[i].revision))
    && (forall i, j :: 0 <= i < j < |s.log| && s.log[i].credential == s.log[j].credential ==>
          s.log[i].revision < s.log[j].revision)
  }

  ghost predicate Inv(s: State) {
    PurposesOk(s) && OneTaskEach(s) && LogOk(s)
  }

  /** Where a session that exists after the step comes from. */
  lemma SessionOrigin(s: State, e: Event, s': State, id: SessionId)
    requires Step(s, e, s') && id in s'.sessions
    ensures || (e.OpenJar? && e.id == id && s'.sessions[id].binding == e.binding && id in s'.purposes)
            || (&& id in s.sessions && s'.sessions[id].binding == s.sessions[id].binding
                && (|| s'.sessions[id].state == s.sessions[id].state
                    || (e.StartCommit? && e.id == id && s.sessions[id].state.Active? && s'.sessions[id].state.Committing?)
                    || (e.CloseSession? && s.tasks[e.t].id == id)))
  {}

  /** Where a task that exists after the step comes from. */
  lemma TaskOrigin(s: State, e: Event, s': State, t: TaskId)
    requires Step(s, e, s') && t in s'.tasks
    ensures || (t in s.tasks && s'.tasks[t].id == s.tasks[t].id
                && (s'.tasks[t].Reporting?
                    || (!s.tasks[t].Reporting? && s'.tasks[t].credential == s.tasks[t].credential && s'.tasks[t].expected == s.tasks[t].expected)))
            || (&& e.StartCommit? && e.t == t && s'.tasks[t].id == e.id && e.id in s.sessions && e.id in s'.sessions
                && s.sessions[e.id].state.Active? && s'.sessions[e.id].state.Committing?
                && s'.tasks[t].Reading? && s.sessions[e.id].binding.purpose == Refresh(s'.tasks[t].credential, s'.tasks[t].expected))
    ensures e.CloseSession? ==> t != e.t
  {}

  lemma PurposesGrow(s: State, e: Event, s': State)
    requires Step(s, e, s')
    ensures forall id :: id in s.purposes ==> id in s'.purposes && s'.purposes[id] == s.purposes[id]
    ensures e.OpenJar? && e.id in s'.purposes ==> s'.purposes[e.id] == e.binding.purpose
    ensures e.OpenJar? ==> s'.tasks == s.tasks && e.id !in s.purposes
  {}

  lemma StepPurposes(s: State, e: Event, s': State)
    requires PurposesOk(s) && Step(s, e, s')
    ensures PurposesOk(s')
  {
    PurposesGrow(s, e, s');
    forall id | id in s'.sessions ensures id in s'.purposes && s'.purposes[id] == s'.sessions[id].binding.purpose {
      SessionOrigin(s, e, s', id);
    }
    forall t | t in s'.tasks
      ensures s'.tasks[t].id in s'.purposes
      ensures !s'.tasks[t].Reporting? ==> s'.purposes[s'.tasks[t].id] == Refresh(s'.tasks[t].credential, s'.tasks[t].expected)
    {
      TaskOrigin(s, e, s', t);
    }
  }

  lemma StepOneTask(s: State, e: Event, s': State)
    requires PurposesOk(s) && OneTaskEach(s) && Step(s, e, s')
    ensures OneTaskEach(s')
  {
    PurposesGrow(s, e, s');
    forall t, u | t in s'.tasks && u in s'.tasks && s'.tasks[t].id == s'.tasks[u].id ensures t == u {
      TaskOrigin(s, e, s', t);
      TaskOrigin(s, e, s', u);
    }
    forall t | t in s'.tasks && s'.tasks[t].id in s'.sessions ensures s'.sessions[s'.tasks[t].id].state.Committing? {
      TaskOrigin(s, e, s', t);
      SessionOrigin(s, e, s', s'.tasks[t].id);
    }
  }

  lemma WriteLog(s: State, e: Event, s': State)
    requires PurposesOk(s) && LogOk(s) && Step(s, e, s') && e.WriteCredential?
    ensures LogOk(s') && s.log <= s'.log
  {}

  /** Whatever else happens leaves the log alone and lowers no revision. */
  lemma OtherLog(s: State, e: Event, s': State)
    requires PurposesOk(s) && LogOk(s) && Step(s, e, s') && !e.WriteCredential?
    ensures LogOk(s') && s.log == s'.log
  {
    PurposesGrow(s, e, s');
  }

  lemma StepLog(s: State, e: Event, s': State)
    requires PurposesOk(s) && LogOk(s) && Step(s, e, s')
    ensures LogOk(s') && s.log <= s'.log
  {
    if e.WriteCredential? { WriteLog(s, e, s'); } else { OtherLog(s, e, s'); }
  }

  // ----- whole runs -----

  ghost predicate StepAt(states: seq<State>, events: seq<Event>, i: int)
    requires 0 <= i < |events| < |states|
  {
    Step(states[i], events[i], states[i + 1])
  }

  ghost predicate IsRun(states: seq<State>, events: seq<Event>) {
    && |states| == |events| + 1
    && Init(states[0])
    && forall i :: 0 <= i < |events| ==> StepAt(states, events, i)
  }

  lemma {:induction false} RunInv(states: seq<State>, events: seq<Event>, i: nat)
    requires IsRun(states, events) && i < |states|
    ensures Inv(states[i])
  {
    if i > 0 {
      RunInv(states, events, i - 1);
      assert StepAt(states, events, i - 1);
      StepPurposes(states[i - 1], events[i - 1], states[i]);
      StepOneTask(states[i - 1], events[i - 1], states[i]);
      StepLog(states[i - 1], events[i - 1], states[i]);
    }
  }

  /**
   Of all commits that ever take effect, also those whose answer is lost and which are retried,
   no two are of the same credential at the same revision and no two come from one session.
   */
  lemma CommitsAreUnique(states: seq<State>, events: seq<Event>, n: nat, i: nat, j: nat)
    requires IsRun(states, events) && n < |states| && i < j < |states[n].log|
    ensures var log := states[n].log;
            && log[i].session != log[j].session
            && (log[i].credential == log[j].credential ==> log[i].revision < log[j].revision)
  {
    RunInv(states, events, n);
  }

  /** `c` takes effect between the two states: the credential moves on by one from the session's revision. */
  ghost predicate Raises(s: State, c: Commit, s': State) {
    && s'.log == s.log + [c]
    && c.credential in s.credentials && s.credentials[c.credential] == c.revision
    && s'.credentials == s.credentials[c.credential := c.revision + 1]
    && c.session in s.purposes && s.purposes[c.session] == Refresh(c.credential, c.revision)
  }

  /** Each commit raises the credential's revision by one from the revision its session was opened for. */
  lemma CommitRaisesRevision(states: seq<State>, events: seq<Event>, n: nat) returns (c: Commit)
    requires IsRun(states, events) && n < |events| && states[n + 1].log != states[n].log
    ensures Raises(states[n], c, states[n + 1])
  {
    RunInv(states, events, n);
    assert StepAt(states, events, n);
    assert events[n].WriteCredential?;
    var Writing(id, credential, expected) := states[n].tasks[events[n].t];
    c := Commit(id, credential, expected);
  }

  /** A session under commit belongs to one task; nobody else can start a second commit of it. */
  lemma OneCommitAtATime(states: seq<State>, events: seq<Event>, n: nat, t: TaskId, u: TaskId)
    requires IsRun(states, events) && n < |states| && t in states[n].tasks && u in states[n].tasks
    requires states[n].tasks[t].id == states[n].tasks[u].id
    ensures t == u
  {
    RunInv(states, events, n);
  }
}
