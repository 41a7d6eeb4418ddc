/**
 Per-plugin operation locks kept in a registry of weak references, and the leases of content
 calls that outlive the lock. Any number of tasks acquire, hold, drop and cancel at will.
 */
module OperationLocks {
  type PluginId = string
  type LockId = nat
  type TaskId = nat

  datatype Goal = StopPlugin | CallContent | OtherOperation

  /** A task's references: to the lock object, to the lock itself, to a lease, or a mix of them. */
  datatype Task =
    | Trying(p: PluginId, lock: LockId, goal: Goal)
    | Holding(p: PluginId, lock: LockId, goal: Goal)
    | Stopping(p: PluginId, lock: LockId)
    | Leasing(p: PluginId, lock: LockId)
    | Invoking(p: PluginId)
  {
    /** Keeps the lock object alive. */
    predicate Refers() { !Invoking? }
    predicate Owns() { Holding? || Stopping? || Leasing? }
    predicate HasLease() { Leasing? || Invoking? }
  }

  datatype State = State(registry: map<PluginId, LockId>, locked: set<LockId>, nextLock: LockId,
                         activeCalls: map<PluginId, nat>, tasks: map<TaskId, Task>)

  ghost predicate Init(s: State) {
    s.registry == map[] && s.locked == {} && s.activeCalls == map[] && s.tasks == map[]
  }

  /** Some task still holds a strong reference to the lock. */
  predicate IsAlive(s: State, lock: LockId) {
    exists t :: t in s.tasks && s.tasks[t].Refers() && s.tasks[t].lock == lock
  }

  /** Forget the locks nobody refers to any more. */
  function Purged(s: State): map<PluginId, LockId> {
    map p | p in s.registry && IsAlive(s, s.registry[p]) :: s.registry[p]
  }

  function ActiveCalls(s: State, p: PluginId): nat {
    if p in s.activeCalls then s.activeCalls[p] else 0
  }

  function OneCallMore(active: map<PluginId, nat>, p: PluginId): map<PluginId, nat> {
    active[p := (if p in active then active[p] else 0) + 1]
  }

  function OneCallLess(active: map<PluginId, nat>, p: PluginId): map<PluginId, nat> {
    if p !in active then active
    else if active[p] <= 1 then active - {p}
    else active[p := active[p] - 1]
  }

  /** The task's guards are dropped: the lock is freed if it owned it, the lease is returned if it had one. */
  function Dropped(s: State, t: TaskId): State
    requires t in s.tasks
  {
    var task := s.tasks[t];
    s.(tasks := s.tasks - {t},
       locked := if task.Owns() then s.locked - {task.lock} else s.locked,
       activeCalls := if task.HasLease() then OneCallLess(s.activeCalls, task.p) else s.activeCalls)
  }

  datatype Action =
    | Lookup(t: TaskId, p: PluginId, goal: Goal)
    | TryLock(t: TaskId)
    | CheckCalls(t: TaskId)
    | BeginCall(t: TaskId)
    | UnlockForCall(t: TaskId)
    | Drop(t: TaskId)

  ghost predicate Step(s: State, a: Action, s': State) {
    match a
    case Lookup(t, p, goal) =>
      && t !in s.tasks
      && var registry := Purged(s);
         var lock := if p in registry then registry[p] else s.nextLock;
         s' == s.(registry := registry[p := lock],
                  nextLock := if p in registry then s.nextLock else s.nextLock + 1,
                  tasks := s.tasks[t := Trying(p, lock, goal)])
    case TryLock(t) =>
      && t in s.tasks && s.tasks[t].Trying?
      && var Trying(p, lock, goal) := s.tasks[t];
         s' == if lock in s.locked then Dropped(s, t)
               else s.(locked := s.locked + {lock}, tasks := s.tasks[t := Holding(p, lock, goal)])
    case CheckCalls(t) =>
      && t in s.tasks && s.tasks[t].Holding? && s.tasks[t].goal.StopPlugin?
      && s' == if ActiveCalls(s, s.tasks[t].p) > 0 then Dropped(s, t)
               else s.(tasks := s.tasks[t := Stopping(s.tasks[t].p, s.tasks[t].lock)])
    case BeginCall(t) =>
      && t in s.tasks && s.tasks[t].Holding? && s.tasks[t].goal.CallContent?
      && s' == s.(activeCalls := OneCallMore(s.activeCalls, s.tasks[t].p),
                  tasks := s.tasks[t := Leasing(s.tasks[t].p, s.tasks[t].lock)])
    case UnlockForCall(t) =>
      && t in s.tasks && s.tasks[t].Leasing?
      && s' == s.(locked := s.locked - {s.tasks[t].lock}, tasks := s.tasks[t := Invoking(s.tasks[t].p)])
    case Drop(t) => t in s.tasks && s' == Dropped(s, t)
  }

  // ----- the invariant -----

  ghost predicate RefersTo(s: State, t: TaskId, p: PluginId, lock: LockId) {
    t in s.tasks && s.tasks[t].Refers() && s.tasks[t].p == p && s.tasks[t].lock == lock
  }

  /** Every live reference for a plugin is to the registered lock, and no lock serves two plugins. */
  ghost predicate Registered(s: State) {
    && (forall t, p, lock :: RefersTo(s, t, p, lock) ==> p in s.registry && s.registry[p] == lock)
    && (forall p :: p in s.registry ==> s.registry[p] < s.nextLock)
    && (forall p, q :: p in s.registry && q in s.registry && s.registry[p] == s.registry[q] ==> p == q)
  }

  ghost predicate Owner(s: State, t: TaskId, lock: LockId) {
    t in s.tasks && s.tasks[t].Owns() && s.tasks[t].lock == lock
  }

  ghost predicate Exclusive(s: State) {
    && (forall t, lock :: Owner(s, t, lock) ==> lock in s.locked)
    && (forall t, u, lock :: Owner(s, t, lock) && Owner(s, u, lock) ==> t == u)
  }

  ghost function Leases(s: State, p: PluginId): set<TaskId> {
    set t | t in s.tasks && s.tasks[t].HasLease() && s.tasks[t].p == p
  }

  ghost predicate Counted(s: State) {
    forall p :: ActiveCalls(s, p) == |Leases(s, p)| && (p in s.activeCalls ==> s.activeCalls[p] > 0)
  }

  ghost predicate StopsAlone(s: State) {
    forall t :: t in s.tasks && s.tasks[t].Stopping? ==> Leases(s, s.tasks[t].p) == {}
  }

  ghost predicate Inv(s: State) {
    Registered(s) && Exclusive(s) && Counted(s) && StopsAlone(s)
  }

  lemma StepRegistered(s: State, a: Action, s': State)
    requires Registered(s) && Exclusive(s) && Step(s, a, s')
    ensures Registered(s')
  {
    if a.Lookup? {
      forall t, p, lock | RefersTo(s', t, p, lock) ensures p in s'.registry && s'.registry[p] == lock {
        if t != a.t {
          assert RefersTo(s, t, p, lock);
          assert IsAlive(s, lock);
        }
      }
    } else {
      assert s'.registry == s.registry && s'.nextLock == s.nextLock;
      forall t, p, lock | RefersTo(s', t, p, lock) ensures RefersTo(s, t, p, lock) {}
    }
  }

  lemma StepExclusive(s: State, a: Action, s': State)
    requires Registered(s) && Exclusive(s) && Step(s, a, s')
    ensures Exclusive(s')
  {
    forall t, lock | Owner(s', t, lock)
      ensures (Owner(s, t, lock) && (t != a.t ==> !Owner(s, a.t, lock))) || (a == TryLock(t) && lock !in s.locked)
      ensures lock in s'.locked
    {
      if Owner(s, t, lock) && t != a.t { assert !Owner(s, a.t, lock); }
    }
  }

  lemma StepCounted(s: State, a: Action, s': State)
    requires Counted(s) && Step(s, a, s')
    ensures Counted(s')
  {
    forall p ensures ActiveCalls(s', p) == |Leases(s', p)| && (p in s'.activeCalls ==> s'.activeCalls[p] > 0) {
      assert ActiveCalls(s, p) == |Leases(s, p)|;
      if !a.Lookup? && s' == Dropped(s, a.t) {
        DropCounted(s, a.t, p);
      } else if a.BeginCall? && s.tasks[a.t].p == p {
        assert Leases(s', p) == Leases(s, p) + {a.t};
      } else {
        SameLeases(s, a, s', p);
      }
    }
  }

  lemma DropCounted(s: State, t: TaskId, p: PluginId)
    requires Counted(s) && t in s.tasks
    ensures ActiveCalls(Dropped(s, t), p) == |Leases(Dropped(s, t), p)|
    ensures p in Dropped(s, t).activeCalls ==> Dropped(s, t).activeCalls[p] > 0
  {
    assert ActiveCalls(s, p) == |Leases(s, p)|;
    if s.tasks[t].HasLease() && s.tasks[t].p == p {
      assert t in Leases(s, p);
      assert Leases(Dropped(s, t), p) == Leases(s, p) - {t};
    } else {
      assert Leases(Dropped(s, t), p) == Leases(s, p);
    }
  }

  lemma SameLeases(s: State, a: Action, s': State, p: PluginId)
    requires Step(s, a, s') && (a.Lookup? || s' != Dropped(s, a.t)) && !(a.BeginCall? && s.tasks[a.t].p == p)
    ensures Leases(s', p) == Leases(s, p)
    ensures ActiveCalls(s', p) == ActiveCalls(s, p) && (p in s'.activeCalls <==> p in s.activeCalls)
  {
    forall t ensures t in Leases(s', p) <==> t in Leases(s, p) {}
  }

  lemma StepStopsAlone(s: State, a: Action, s': State)
    requires Inv(s) && Step(s, a, s')
    ensures StopsAlone(s')
  {
    forall t | t in s'.tasks && s'.tasks[t].Stopping? ensures Leases(s', s'.tasks[t].p) == {} {
      var p := s'.tasks[t].p;
      if t in s.tasks && s.tasks[t].Stopping? {
        if a.BeginCall? && s.tasks[a.t].p == p {
          assert RefersTo(s, t, p, s.tasks[t].lock) && RefersTo(s, a.t, p, s.tasks[a.t].lock);
          assert Owner(s, t, s.tasks[t].lock) && Owner(s, a.t, s.tasks[t].lock);
          assert false;
        }
        assert Leases(s', p) <= Leases(s, p);
      } else {
        assert a == CheckCalls(t);
        assert ActiveCalls(s, p) == |Leases(s, p)| == 0;
        assert Leases(s', p) == Leases(s, p);
      }
    }
  }

  // ----- whole runs -----

  ghost predicate StepAt(states: seq<State>, actions: seq<Action>, i: int)
    requires 0 <= i < |actions| < |states|
  {
    Step(states[i], actions[i], states[i + 1])
  }

  ghost predicate IsRun(states: seq<State>, actions: seq<Action>) {
    && |states| == |actions| + 1
    && Init(states[0])
    && forall i :: 0 <= i < |actions| ==> StepAt(states, actions, i)
  }

  lemma {:induction false} RunInv(states: seq<State>, actions: seq<Action>, i: nat)
    requires IsRun(states, actions) && i < |states|
    ensures Inv(states[i])
  {
    if i == 0 {
      forall p ensures ActiveCalls(states[0], p) == |Leases(states[0], p)| { assert Leases(states[0], p) == {}; }
    } else {
      RunInv(states, actions, i - 1);
      assert StepAt(states, actions, i - 1);
      StepRegistered(states[i - 1], actions[i - 1], states[i]);
      StepExclusive(states[i - 1], actions[i - 1], states[i]);
      StepCounted(states[i - 1], actions[i - 1], states[i]);
      StepStopsAlone(states[i - 1], actions[i - 1], states[i]);
    }
  }

  /** However often the registry is purged, a plugin's lock has at most one holder. */
  lemma OneHolderPerPlugin(states: seq<State>, actions: seq<Action>, i: nat, t: TaskId, u: TaskId)
    requires IsRun(states, actions) && i < |states|
    requires t in states[i].tasks && states[i].tasks[t].Owns() && u in states[i].tasks && states[i].tasks[u].Owns()
    requires states[i].tasks[t].p == states[i].tasks[u].p
    ensures t == u
  {
    RunInv(states, actions, i);
    var s := states[i];
    assert RefersTo(s, t, s.tasks[t].p, s.tasks[t].lock) && RefersTo(s, u, s.tasks[u].p, s.tasks[u].lock);
    assert Owner(s, t, s.tasks[t].lock) && Owner(s, u, s.tasks[t].lock);
  }

  /** The call counter is the number of live leases, and a plugin being stopped has none. */
  lemma StopsWithoutCalls(states: seq<State>, actions: seq<Action>, i: nat, t: TaskId)
    requires IsRun(states, actions) && i < |states|
    ensures forall p :: ActiveCalls(states[i], p) == |Leases(states[i], p)|
    ensures t in states[i].tasks && states[i].tasks[t].Stopping? ==>
              Leases(states[i], states[i].tasks[t].p) == {} && ActiveCalls(states[i], states[i].tasks[t].p) == 0
  {
    RunInv(states, actions, i);
  }
}
