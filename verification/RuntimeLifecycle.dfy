/**
 The lifecycle adapter: start, stop, inspect and remove of many plugins at once, one thread per
 plugin, over a Supervisor that may refuse, fail or leave every call unanswered.
 */
module RuntimeLifecycle {
  import opened Collections
  import opened TokenRegistry

  /** What the thread holding a plugin's lifecycle lock is waiting for. */
  datatype Thread =
    | ConfirmBeforeStart
    | CallingStart(generation: Generation)
    | ConfirmAfterStart(generation: Generation)
    | CallingStop
    | CallingInspect(seen: Option<Generation>)
    | ConfirmAfterInspect(seen: Option<Generation>)
    | CallingRemove

  /**
   `mayRun` holds, per plugin, the tokens of containers that have been asked for and not been
   confirmed gone. `minted` holds every digest ever handed out; the code never reads either.
   */
  datatype State = State(registry: Registry, capacity: nat, generations: map<PluginId, Generation>,
                         threads: map<PluginId, Thread>,
                         mayRun: map<PluginId, set<(Generation, Digest)>>, minted: set<Digest>)

  ghost predicate Init(s: State) {
    && s.registry == Registry(map[], map[]) && s.generations == map[] && s.threads == map[]
    && s.mayRun == map[] && s.minted == {}
  }

  function MayRun(s: State, p: PluginId): set<(Generation, Digest)> {
    if p in s.mayRun then s.mayRun[p] else {}
  }

  // ----- the adapter's bookkeeping -----

  function RevokeGeneration(s: State, p: PluginId): State {
    if p in s.generations
    then s.(generations := s.generations - {p}, registry := Revoked(s.registry, p, s.generations[p]))
    else s
  }

  function RevokeIfCurrent(s: State, p: PluginId, g: Option<Generation>): State {
    if g.Some? && p in s.generations && s.generations[p] == g.value then RevokeGeneration(s, p) else s
  }

  /** The Supervisor says the plugin's container is stopped or removed. */
  function ConfirmedGone(s: State, p: PluginId): State {
    s.(mayRun := s.mayRun[p := {}])
  }

  function Release(s: State, p: PluginId): State {
    s.(threads := s.threads - {p})
  }

  function Continue(s: State, p: PluginId, t: Thread): State {
    s.(threads := s.threads[p := t])
  }

  /** Register a fresh token, remember its generation, and ask for the container. */
  function MintAndCall(s: State, p: PluginId, g: Generation, d: Digest): State {
    if p !in s.registry.byPlugin && |s.registry.byPlugin| >= s.capacity then Release(s, p)
    else Continue(s.(registry := Registered(s.registry, p, g, d), generations := s.generations[p := g],
                     mayRun := s.mayRun[p := MayRun(s, p) + {(g, d)}], minted := s.minted + {d}),
                  p, CallingStart(g))
  }

  // ----- steps -----

  datatype Answer = Confirmed | Healthy | Otherwise

  datatype Action =
    | Start(p: PluginId, g: Generation, d: Digest)
    | Stop(p: PluginId)
    | Inspect(p: PluginId)
    | Remove(p: PluginId)
    | Answered(p: PluginId, answer: Answer, g: Generation, d: Digest)
    | Cancelled(p: PluginId)
    | Exited(p: PluginId, left: set<(Generation, Digest)>)

  /** What the thread of `p` does with the Supervisor's answer; `g` and `d` are the token minted then, if any. */
  function AfterAnswer(s: State, p: PluginId, answer: Answer, g: Generation, d: Digest): State
    requires p in s.threads
  {
    match s.threads[p]
    case ConfirmBeforeStart =>
      if answer.Confirmed? then MintAndCall(RevokeGeneration(ConfirmedGone(s, p), p), p, g, d) else Release(s, p)
    case CallingStart(generation) =>
      if answer.Healthy? then Release(s, p) else Continue(s, p, ConfirmAfterStart(generation))
    case ConfirmAfterStart(generation) =>
      if answer.Confirmed? then Release(RevokeIfCurrent(ConfirmedGone(s, p), p, Some(generation)), p) else Release(s, p)
    case CallingInspect(seen) =>
      if answer.Healthy? && seen.Some? then Release(s, p) else Continue(s, p, ConfirmAfterInspect(seen))
    case ConfirmAfterInspect(seen) =>
      if answer.Confirmed? then Release(RevokeIfCurrent(ConfirmedGone(s, p), p, seen), p) else Release(s, p)
    case _ =>
      if answer.Confirmed? then Release(RevokeGeneration(ConfirmedGone(s, p), p), p) else Release(s, p)
  }

  ghost predicate Step(s: State, a: Action, s': State) {
    match a
    case Start(p, g, d) =>
      && p !in s.threads && d !in s.minted
      && s' == if p in s.generations then Continue(s, p, ConfirmBeforeStart) else MintAndCall(s, p, g, d)
    case Stop(p) => p !in s.threads && s' == Continue(s, p, CallingStop)
    case Inspect(p) =>
      && p !in s.threads
      && s' == Continue(s, p, CallingInspect(if p in s.generations then Some(s.generations[p]) else None))
    case Remove(p) => p !in s.threads && s' == Continue(s, p, CallingRemove)
    case Answered(p, answer, g, d) => p in s.threads && d !in s.minted && s' == AfterAnswer(s, p, answer, g, d)
    case Cancelled(p) => s' == Release(s, p)
    case Exited(p, left) => left <= MayRun(s, p) && s' == s.(mayRun := s.mayRun[p := left])
  }

  // ----- the invariant, plugin by plugin -----

  /** Everything that concerns one plugin. */
  datatype Local = Local(mayRun: set<(Generation, Digest)>, token: Option<(Generation, Digest)>,
                         generation: Option<Generation>, thread: Option<Thread>)

  function At(s: State, p: PluginId): Local {
    Local(MayRun(s, p),
          if p in s.registry.byPlugin then Some(s.registry.byPlugin[p]) else None,
          if p in s.generations then Some(s.generations[p]) else None,
          if p in s.threads then Some(s.threads[p]) else None)
  }

  /**
   A container that may still run carries the registered token; the registered token is the
   remembered generation; what a waiting thread noted is still so.
   */
  ghost predicate LocalOk(l: Local) {
    && (forall c :: c in l.mayRun ==> l.token == Some(c))
    && (if l.token.Some? then l.generation == Some(l.token.value.0) else l.generation == None)
    && (l.thread.Some? ==>
          match l.thread.value
          case CallingStart(g) => l.generation == Some(g)
          case ConfirmAfterStart(g) => l.generation == Some(g)
          case CallingInspect(seen) => l.generation == seen
          case ConfirmAfterInspect(seen) => l.generation == seen
          case _ => true)
  }

  ghost predicate RegistryOk(s: State) {
    && Inverse(s.registry) && |s.registry.byPlugin| <= s.capacity
    && (forall d :: d in s.registry.byDigest ==> d in s.minted)
  }

  ghost predicate Inv(s: State) {
    RegistryOk(s) && forall p :: LocalOk(At(s, p))
  }

  ghost predicate OthersKept(s: State, s': State, p: PluginId) {
    forall q :: q != p ==> At(s', q) == At(s, q)
  }

  lemma Assemble(s: State, s': State, p: PluginId)
    requires Inv(s) && OthersKept(s, s', p) && RegistryOk(s') && LocalOk(At(s', p))
    ensures Inv(s')
  {
    forall q ensures LocalOk(At(s', q)) {
      if q != p { assert At(s', q) == At(s, q); }
    }
  }

  lemma GoneFacts(s: State, p: PluginId)
    requires RegistryOk(s)
    ensures var s' := ConfirmedGone(s, p);
            RegistryOk(s') && OthersKept(s, s', p) && At(s', p) == At(s, p).(mayRun := {})
  {}

  lemma WithoutPluginSmaller(r: Registry, p: PluginId)
    ensures |WithoutPlugin(r, p).byPlugin| <= |r.byPlugin|
    ensures forall d :: d in WithoutPlugin(r, p).byDigest ==> d in r.byDigest
    ensures forall q :: q in WithoutPlugin(r, p).byPlugin <==> q in r.byPlugin && q != p
    ensures forall q :: q in WithoutPlugin(r, p).byPlugin ==> WithoutPlugin(r, p).byPlugin[q] == r.byPlugin[q]
  {
    assert WithoutPlugin(r, p).byPlugin.Keys == r.byPlugin.Keys - {p};
  }

  /** Revoking the remembered generation takes the plugin out of the registry. */
  lemma RevokedIsWithout(s: State, p: PluginId)
    requires LocalOk(At(s, p))
    ensures RevokeGeneration(s, p)
         == s.(generations := s.generations - {p}, registry := WithoutPlugin(s.registry, p))
  {
    if p !in s.generations {
      assert At(s, p).token == None;
      assert s.generations - {p} == s.generations;
    }
  }

  lemma RevokeRegistry(s: State, p: PluginId)
    requires RegistryOk(s) && LocalOk(At(s, p))
    ensures RegistryOk(RevokeGeneration(s, p)) && RevokeGeneration(s, p).minted == s.minted
  {
    RevokedIsWithout(s, p);
    WithoutPluginInverse(s.registry, p);
    WithoutPluginSmaller(s.registry, p);
  }

  lemma RevokeLocal(s: State, p: PluginId)
    requires LocalOk(At(s, p))
    ensures OthersKept(s, RevokeGeneration(s, p), p)
    ensures At(RevokeGeneration(s, p), p) == At(s, p).(token := None, generation := None)
  {
    RevokedIsWithout(s, p);
    WithoutPluginSmaller(s.registry, p);
  }

  lemma RevokeFacts(s: State, p: PluginId)
    requires RegistryOk(s) && LocalOk(At(s, p))
    ensures var s' := RevokeGeneration(s, p);
            && RegistryOk(s') && OthersKept(s, s', p) && s'.minted == s.minted
            && At(s', p) == At(s, p).(token := None, generation := None)
  {
    RevokeRegistry(s, p);
    RevokeLocal(s, p);
  }

  function Minted(s: State, p: PluginId, g: Generation, d: Digest): State {
    State(Registry(s.registry.byDigest[d := (p, g)], s.registry.byPlugin[p := (g, d)]), s.capacity,
          s.generations[p := g], s.threads[p := CallingStart(g)],
          s.mayRun[p := MayRun(s, p) + {(g, d)}], s.minted + {d})
  }

  /** Minting for a plugin without token adds one entry to each map, or gives up for lack of room. */
  lemma MintedState(s: State, p: PluginId, g: Generation, d: Digest)
    requires RegistryOk(s) && d !in s.minted && At(s, p).token == None
    ensures |s.registry.byPlugin| >= s.capacity ==> MintAndCall(s, p, g, d) == Release(s, p)
    ensures |s.registry.byPlugin| < s.capacity ==> MintAndCall(s, p, g, d) == Minted(s, p, g, d)
  {
    RegisteredNew(s.registry, p, g, d);
  }

  lemma MintedLocal(s: State, p: PluginId, g: Generation, d: Digest)
    ensures OthersKept(s, Minted(s, p, g, d), p)
    ensures At(Minted(s, p, g, d), p) == Local(MayRun(s, p) + {(g, d)}, Some((g, d)), Some(g), Some(CallingStart(g)))
  {
  }

  lemma MintRegistry(s: State, p: PluginId, g: Generation, d: Digest)
    requires RegistryOk(s) && d !in s.minted && At(s, p).token == None
    ensures RegistryOk(MintAndCall(s, p, g, d))
  {
    RegisteredNew(s.registry, p, g, d);
  }

  lemma MintFacts(s: State, p: PluginId, g: Generation, d: Digest)
    requires RegistryOk(s) && d !in s.minted && At(s, p).token == None && At(s, p).generation == None
    ensures var s' := MintAndCall(s, p, g, d);
            && OthersKept(s, s', p)
            && At(s', p) == if |s.registry.byPlugin| < s.capacity
                            then Local(MayRun(s, p) + {(g, d)}, Some((g, d)), Some(g), Some(CallingStart(g)))
                            else At(s, p).(thread := None)
  {
    MintedState(s, p, g, d);
    MintedLocal(s, p, g, d);
    ThreadFacts(s, p, CallingStop);
  }

  lemma ThreadFacts(s: State, p: PluginId, t: Thread)
    ensures OthersKept(s, Release(s, p), p) && At(Release(s, p), p) == At(s, p).(thread := None)
    ensures OthersKept(s, Continue(s, p, t), p) && At(Continue(s, p, t), p) == At(s, p).(thread := Some(t))
  {}

  lemma KeptTransitive(a: State, b: State, c: State, p: PluginId)
    requires OthersKept(a, b, p) && OthersKept(b, c, p)
    ensures OthersKept(a, c, p)
  {}

  /** The thread of `p` only changes what it waits for. */
  lemma ThreadInv(s: State, p: PluginId, t: Thread)
    requires Inv(s)
    ensures Inv(Release(s, p)) && OthersKept(s, Release(s, p), p)
    ensures OthersKept(s, Continue(s, p, t), p)
    ensures LocalOk(At(s, p).(thread := Some(t))) ==> Inv(Continue(s, p, t))
  {
    ThreadFacts(s, p, t);
    assert LocalOk(At(s, p));
    Assemble(s, Release(s, p), p);
    if LocalOk(At(s, p).(thread := Some(t))) { Assemble(s, Continue(s, p, t), p); }
  }

  /** The container is confirmed gone, so its token goes too. */
  lemma GoneInv(s: State, p: PluginId)
    requires Inv(s)
    ensures var s' := Release(RevokeGeneration(ConfirmedGone(s, p), p), p);
            Inv(s') && OthersKept(s, s', p) && At(s', p) == Local({}, None, None, None)
  {
    var gone := ConfirmedGone(s, p);
    var revoked := RevokeGeneration(gone, p);
    assert LocalOk(At(s, p));
    GoneFacts(s, p);
    RevokeFacts(gone, p);
    ThreadFacts(revoked, p, CallingStop);
    KeptTransitive(s, gone, revoked, p);
    KeptTransitive(s, revoked, Release(revoked, p), p);
    Assemble(s, Release(revoked, p), p);
  }

  /** A plugin that has no token, and of which nothing may run any more, gets a fresh one. */
  lemma MintOne(s: State, clean: State, p: PluginId, g: Generation, d: Digest)
    requires Inv(s) && OthersKept(s, clean, p) && RegistryOk(clean) && d !in clean.minted
    requires At(clean, p).token == None && At(clean, p).generation == None && At(clean, p).mayRun == {}
    ensures Inv(MintAndCall(clean, p, g, d)) && OthersKept(s, MintAndCall(clean, p, g, d), p)
    ensures forall c :: c in MayRun(MintAndCall(clean, p, g, d), p) ==> c == (g, d)
  {
    var s' := MintAndCall(clean, p, g, d);
    MintRegistry(clean, p, g, d);
    MintFacts(clean, p, g, d);
    KeptTransitive(s, clean, s', p);
    assert MayRun(s', p) == At(s', p).mayRun;
    Assemble(s, s', p);
  }

  lemma MintInv(s: State, p: PluginId, g: Generation, d: Digest)
    requires Inv(s) && d !in s.minted
    ensures var s' := MintAndCall(RevokeGeneration(ConfirmedGone(s, p), p), p, g, d); Inv(s') && OthersKept(s, s', p)
  {
    var gone := ConfirmedGone(s, p);
    assert LocalOk(At(s, p));
    GoneFacts(s, p);
    RevokeFacts(gone, p);
    KeptTransitive(s, gone, RevokeGeneration(gone, p), p);
    MintOne(s, RevokeGeneration(gone, p), p, g, d);
  }

  lemma FirstMintInv(s: State, p: PluginId, g: Generation, d: Digest)
    requires Inv(s) && d !in s.minted && p !in s.generations
    ensures Inv(MintAndCall(s, p, g, d)) && OthersKept(s, MintAndCall(s, p, g, d), p)
  {
    assert LocalOk(At(s, p)) && At(s, p).mayRun == {};
    MintOne(s, s, p, g, d);
  }

  /** A thread that noted the current generation revokes exactly that one. */
  lemma RevokesCurrent(s: State, p: PluginId, g: Option<Generation>)
    requires At(s, p).generation == g
    ensures RevokeIfCurrent(ConfirmedGone(s, p), p, g) == RevokeGeneration(ConfirmedGone(s, p), p)
  {}

  /** An answer that ends a start, or makes it ask for confirmation. */
  lemma StartAnswerInv(s: State, p: PluginId, answer: Answer, g: Generation, d: Digest)
    requires Inv(s) && p in s.threads && d !in s.minted
    requires s.threads[p].ConfirmBeforeStart? || s.threads[p].CallingStart?
    ensures Inv(AfterAnswer(s, p, answer, g, d)) && OthersKept(s, AfterAnswer(s, p, answer, g, d), p)
  {
    assert LocalOk(At(s, p));
    if s.threads[p].ConfirmBeforeStart? {
      ThreadInv(s, p, CallingStop);
      MintInv(s, p, g, d);
    } else {
      ThreadInv(s, p, ConfirmAfterStart(s.threads[p].generation));
    }
  }

  lemma InspectAnswerInv(s: State, p: PluginId, answer: Answer, g: Generation, d: Digest, seen: Option<Generation>)
    requires Inv(s) && p in s.threads && s.threads[p] == CallingInspect(seen)
    ensures Inv(AfterAnswer(s, p, answer, g, d)) && OthersKept(s, AfterAnswer(s, p, answer, g, d), p)
  {
    assert LocalOk(At(s, p));
    ThreadInv(s, p, ConfirmAfterInspect(seen));
  }

  /** A thread that noted `g` as the current generation hears that the container is gone, or does not. */
  lemma ConfirmAnswerInv(s: State, p: PluginId, seen: Option<Generation>)
    requires Inv(s) && At(s, p).generation == seen
    ensures var s' := Release(RevokeIfCurrent(ConfirmedGone(s, p), p, seen), p); Inv(s') && OthersKept(s, s', p)
    ensures Inv(Release(s, p)) && OthersKept(s, Release(s, p), p)
  {
    RevokesCurrent(s, p, seen);
    GoneInv(s, p);
    ThreadInv(s, p, CallingStop);
  }

  lemma StopAnswerInv(s: State, p: PluginId, answer: Answer, g: Generation, d: Digest)
    requires Inv(s) && p in s.threads && (s.threads[p].CallingStop? || s.threads[p].CallingRemove?)
    ensures Inv(AfterAnswer(s, p, answer, g, d)) && OthersKept(s, AfterAnswer(s, p, answer, g, d), p)
  {
    ThreadInv(s, p, CallingStop);
    GoneInv(s, p);
  }

  lemma AnswerInv(s: State, p: PluginId, answer: Answer, g: Generation, d: Digest)
    requires Inv(s) && p in s.threads && d !in s.minted
    ensures Inv(AfterAnswer(s, p, answer, g, d)) && OthersKept(s, AfterAnswer(s, p, answer, g, d), p)
  {
    var t := s.threads[p];
    if t.ConfirmBeforeStart? || t.CallingStart? {
      StartAnswerInv(s, p, answer, g, d);
    } else if t.ConfirmAfterStart? {
      assert LocalOk(At(s, p));
      ConfirmAnswerInv(s, p, Some(t.generation));
    } else if t.CallingInspect? {
      InspectAnswerInv(s, p, answer, g, d, t.seen);
    } else if t.ConfirmAfterInspect? {
      assert LocalOk(At(s, p));
      ConfirmAnswerInv(s, p, t.seen);
    } else {
      StopAnswerInv(s, p, answer, g, d);
    }
  }

  lemma StartInv(s: State, p: PluginId, g: Generation, d: Digest)
    requires Inv(s) && d !in s.minted
    ensures var s' := if p in s.generations then Continue(s, p, ConfirmBeforeStart) else MintAndCall(s, p, g, d);
            Inv(s') && OthersKept(s, s', p)
  {
    if p in s.generations {
      assert LocalOk(At(s, p));
      ThreadInv(s, p, ConfirmBeforeStart);
    } else {
      FirstMintInv(s, p, g, d);
    }
  }

  /** A thread takes up a call, or is cancelled. */
  lemma CallInv(s: State, a: Action, s': State)
    requires Inv(s) && Step(s, a, s') && (a.Stop? || a.Remove? || a.Inspect? || a.Cancelled?)
    ensures Inv(s') && OthersKept(s, s', a.p)
  {
    var t := if a.Inspect? then CallingInspect(At(s, a.p).generation) else if a.Remove? then CallingRemove else CallingStop;
    assert LocalOk(At(s, a.p));
    ThreadInv(s, a.p, t);
  }

  lemma StepInv(s: State, a: Action, s': State)
    requires Inv(s) && Step(s, a, s')
    ensures Inv(s') && OthersKept(s, s', a.p)
  {
    match a
    case Start(p, g, d) => StartInv(s, p, g, d);
    case Answered(p, answer, g, d) => AnswerInv(s, p, answer, g, d);
    case Exited(p, left) => ExitedInv(s, p, left);
    case _ => CallInv(s, a, s');
  }

  lemma ExitedInv(s: State, p: PluginId, left: set<(Generation, Digest)>)
    requires Inv(s) && left <= MayRun(s, p)
    ensures var s' := s.(mayRun := s.mayRun[p := left]); Inv(s') && OthersKept(s, s', p)
  {
    assert LocalOk(At(s, p));
    Assemble(s, s.(mayRun := s.mayRun[p := left]), p);
  }

  // ----- whole runs -----

  ghost predicate StepAt(states: seq<State>, actions: seq<Action>, i: int)
    requires 0 <= i < |actions| < |states|
  {
    Step(states[i], actions[i], states[i + 1])
  }

  ghost predicate IsRun(states: seq<State>, actions: seq<Action>) {
    && |states| == |actions| + 1
    && Init(states[0])
    && forall i :: 0 <= i < |actions| ==> StepAt(states, actions, i)
  }

  lemma {:induction false} RunInv(states: seq<State>, actions: seq<Action>, i: nat)
    requires IsRun(states, actions) && i < |states|
    ensures Inv(states[i])
  {
    if i > 0 {
      RunInv(states, actions, i - 1);
      assert StepAt(states, actions, i - 1);
      StepInv(states[i - 1], actions[i - 1], states[i]);
    }
  }

  /** At every moment the two maps are inverse and within capacity, and every container that may still run is let through. */
  lemma RunningContainersAuthenticate(states: seq<State>, actions: seq<Action>, i: nat)
    requires IsRun(states, actions) && i < |states|
    ensures Inverse(states[i].registry) && |states[i].registry.byPlugin| <= states[i].capacity
    ensures forall p, g, d :: (g, d) in MayRun(states[i], p) ==> Authenticates(states[i].registry, p, g, d)
  {
    RunInv(states, actions, i);
    forall p, g, d | (g, d) in MayRun(states[i], p) ensures Authenticates(states[i].registry, p, g, d) {
      assert LocalOk(At(states[i], p));
      assert At(states[i], p).token == Some((g, d));
    }
  }

  /**
   A token loses its validity, to revocation or to replacement, only in the step in which the
   Supervisor confirms that the plugin's container is gone; no container that may run holds it.
   */
  lemma RevokedOnlyWhenGone(s: State, a: Action, s': State, p: PluginId, g: Generation, d: Digest)
    requires Inv(s) && Step(s, a, s') && Authenticates(s.registry, p, g, d) && !Authenticates(s'.registry, p, g, d)
    ensures a.Answered? && a.p == p && a.answer.Confirmed? && (g, d) !in MayRun(s', p)
  {
    StepInv(s, a, s');
    assert LocalOk(At(s, p)) && LocalOk(At(s', p));
    assert At(s, p).token == Some((g, d)) && At(s', p).token != Some((g, d));
    assert a.p == p;
  }
}
