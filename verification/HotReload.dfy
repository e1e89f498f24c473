/** The per-agent caches of the multi-agent factory under hot reload
  (internal/multiagent/factory.go).

  Reload swaps the registry atomically and without the cache lock; each Reload
  repairs the caches afterwards, in any order with respect to other Reloads and
  to resolvers that read the registry while they hold the lock. */
module HotReload {
  import opened Options

  type AgentID = string

  /** The part of an agent's configuration that decides what is cached for it. */
  datatype AgentConfig = AgentConfig(dataDir: string, memoryEnabled: bool)

  type Registry = map<AgentID, AgentConfig>

  predicate DropsSoul(old_: Registry, new_: Registry, a: AgentID) {
    a !in new_ || (a in old_ && old_[a].dataDir != new_[a].dataDir)
  }

  predicate DropsStore(old_: Registry, new_: Registry, a: AgentID) {
    a !in new_ || (a in old_ && old_[a] != new_[a])
  }

  predicate HasSoul(r: Registry, a: AgentID) { a in r && r[a].dataDir != "" }

  predicate HasMemory(r: Registry, a: AgentID) { a in r && r[a].memoryEnabled && r[a].dataDir != "" }

  function KeepSouls<E>(souls: map<AgentID, E>, old_: Registry, new_: Registry): map<AgentID, E> {
    map a | a in souls && !DropsSoul(old_, new_, a) :: souls[a]
  }

  function KeepStores<E>(stores: map<AgentID, E>, old_: Registry, new_: Registry): map<AgentID, E> {
    map a | a in stores && !DropsStore(old_, new_, a) :: stores[a]
  }

  /** The pass ranges over the history stores only. */
  function KeepFacts<E, F>(facts: map<AgentID, F>, stores: map<AgentID, E>, old_: Registry, new_: Registry)
    : map<AgentID, F>
  {
    map a | a in facts && !(a in stores && DropsStore(old_, new_, a)) :: facts[a]
  }

  // ---------------------------------------------------------------------
  // Interleavings of any number of Reloads and resolvers
  // ---------------------------------------------------------------------

  /** A cached loader or store: the directory it was opened with, and the
      registry (by its position in the history) that the directory came from. */
  datatype Opened = Opened(dir: string, born: nat)

  /** What the holder of the cache lock is doing after it has read the registry. */
  datatype Busy = Unlocked | OpeningSoul(agent: AgentID, born: nat) | OpeningStores(agent: AgentID, born: nat)

  /** `history` lists every registry that was ever current; swap number j
      replaced history[j-1] by history[j]. `pending` are the swaps whose Reload
      has not yet run its invalidation pass. */
  datatype State = State(
    history: seq<Registry>,
    pending: set<nat>,
    lock: Busy,
    souls: map<AgentID, Opened>,
    stores: map<AgentID, Option<Opened>>,
    facts: map<AgentID, Opened>)

  datatype Action =
    | Swap(registry: Registry)
    | Invalidate(swap: nat)
    | SoulMiss(agent: AgentID)      // slow path of ResolveSoul up to the registry read
    | SoulOpened
    | HistoryMiss(agent: AgentID)   // slow path of ResolveHistory up to the registry read
    | StoresOpened(ok: bool)
    | Close

  function Current(s: State): Registry
    requires s.history != []
  {
    s.history[|s.history| - 1]
  }

  predicate Enabled(s: State, a: Action) {
    s.history != [] &&
    match a
    case Swap(_) => true
    case Invalidate(j) => s.lock.Unlocked? && j in s.pending && 0 < j < |s.history|
    case SoulMiss(x) => s.lock.Unlocked? && x !in s.souls
    case SoulOpened =>
      s.lock.OpeningSoul? && s.lock.born < |s.history| && s.lock.agent in s.history[s.lock.born]
    case HistoryMiss(x) => s.lock.Unlocked? && x !in s.stores
    case StoresOpened(_) =>
      s.lock.OpeningStores? && s.lock.born < |s.history| && s.lock.agent in s.history[s.lock.born]
    case Close => s.lock.Unlocked?
  }

  function Apply(s: State, a: Action): State
    requires Enabled(s, a)
  {
    match a
    case Swap(r) => s.(history := s.history + [r], pending := s.pending + {|s.history|})
    case Invalidate(j) =>
      var o, n := s.history[j - 1], s.history[j];
      s.(pending := s.pending - {j},
         souls := KeepSouls(s.souls, o, n),
         stores := KeepStores(s.stores, o, n),
         facts := KeepFacts(s.facts, s.stores, o, n))
    case SoulMiss(x) =>
      if HasSoul(Current(s), x) then s.(lock := OpeningSoul(x, |s.history| - 1)) else s
    case SoulOpened =>
      var e := Opened(s.history[s.lock.born][s.lock.agent].dataDir, s.lock.born);
      s.(souls := s.souls[s.lock.agent := e], lock := Unlocked)
    case HistoryMiss(x) =>
      if HasMemory(Current(s), x) then s.(lock := OpeningStores(x, |s.history| - 1))
      else s.(stores := s.stores[x := None])
    case StoresOpened(ok) =>
      var e := Opened(s.history[s.lock.born][s.lock.agent].dataDir, s.lock.born);
      if ok then
        s.(stores := s.stores[s.lock.agent := Some(e)], facts := s.facts[s.lock.agent := e], lock := Unlocked)
      else
        s.(stores := s.stores[s.lock.agent := None], lock := Unlocked)
    case Close => s.(stores := map[], facts := map[])
  }

  function Init(r: Registry): State { State([r], {}, Unlocked, map[], map[], map[]) }

  // ----- the invariant -----

  /** Every swap after position b either has yet to run its pass, or its pass
      would keep the entry of agent a. */
  ghost predicate SoulSettled(h: seq<Registry>, pending: set<nat>, a: AgentID, b: nat) {
    forall j | b < j < |h| :: j in pending || !DropsSoul(h[j - 1], h[j], a)
  }

  ghost predicate StoreSettled(h: seq<Registry>, pending: set<nat>, a: AgentID, b: nat) {
    forall j | b < j < |h| :: j in pending || !DropsStore(h[j - 1], h[j], a)
  }

  ghost predicate SoulFrom(h: seq<Registry>, a: AgentID, e: Opened) {
    e.born < |h| && HasSoul(h[e.born], a) && e.dir == h[e.born][a].dataDir
  }

  ghost predicate StoreFrom(h: seq<Registry>, a: AgentID, e: Opened) {
    e.born < |h| && HasMemory(h[e.born], a) && e.dir == h[e.born][a].dataDir
  }

  /** A cached soul comes from a registry of the past and is settled. */
  ghost predicate SoulTraced(h: seq<Registry>, pending: set<nat>, a: AgentID, e: Opened) {
    SoulFrom(h, a, e) && SoulSettled(h, pending, a, e.born)
  }

  ghost predicate StoreTraced(h: seq<Registry>, pending: set<nat>, a: AgentID, e: Opened) {
    StoreFrom(h, a, e) && StoreSettled(h, pending, a, e.born)
  }

  ghost predicate SoulsTraced(h: seq<Registry>, pending: set<nat>, souls: map<AgentID, Opened>) {
    forall a | a in souls :: SoulTraced(h, pending, a, souls[a])
  }

  ghost predicate StoresTraced(h: seq<Registry>, pending: set<nat>, stores: map<AgentID, Option<Opened>>) {
    forall a | a in stores && stores[a].Some? :: StoreTraced(h, pending, a, stores[a].value)
  }

  /** A fact store is cached only beside the history store it came with. */
  ghost predicate FactsPaired(stores: map<AgentID, Option<Opened>>, facts: map<AgentID, Opened>) {
    forall a | a in facts :: a in stores && stores[a] == Some(facts[a])
  }

  /** While the lock is held no pass can run, so every later swap is pending. */
  ghost predicate LockTraced(h: seq<Registry>, pending: set<nat>, stores: map<AgentID, Option<Opened>>, lock: Busy) {
    match lock
    case Unlocked => true
    case OpeningSoul(a, b) =>
      b < |h| && HasSoul(h[b], a) && forall j | b < j < |h| :: j in pending
    case OpeningStores(a, b) =>
      b < |h| && HasMemory(h[b], a) && a !in stores && forall j | b < j < |h| :: j in pending
  }

  ghost predicate Inv(s: State) {
    && s.history != []
    && (forall j | j in s.pending :: 0 < j < |s.history|)
    && SoulsTraced(s.history, s.pending, s.souls) && StoresTraced(s.history, s.pending, s.stores)
    && FactsPaired(s.stores, s.facts) && LockTraced(s.history, s.pending, s.stores, s.lock)
  }

  lemma SwapKeepsTraces(h: seq<Registry>, pending: set<nat>, r: Registry, a: AgentID, e: Opened)
    ensures SoulTraced(h, pending, a, e) ==> SoulTraced(h + [r], pending + {|h|}, a, e)
    ensures StoreTraced(h, pending, a, e) ==> StoreTraced(h + [r], pending + {|h|}, a, e)
  {
  }

  lemma SwapKeeps(s: State, r: Registry)
    requires Inv(s)
    ensures Inv(Apply(s, Swap(r)))
  {
    var h, pending := s.history, s.pending;
    forall a | a in s.souls ensures SoulTraced(h + [r], pending + {|h|}, a, s.souls[a]) {
      SwapKeepsTraces(h, pending, r, a, s.souls[a]);
    }
    forall a | a in s.stores && s.stores[a].Some? ensures StoreTraced(h + [r], pending + {|h|}, a, s.stores[a].value) {
      SwapKeepsTraces(h, pending, r, a, s.stores[a].value);
    }
  }

  lemma PassKeepsSouls(h: seq<Registry>, pending: set<nat>, souls: map<AgentID, Opened>, j: nat)
    requires SoulsTraced(h, pending, souls) && 0 < j < |h|
    ensures SoulsTraced(h, pending - {j}, KeepSouls(souls, h[j - 1], h[j]))
  {
    forall a | a in KeepSouls(souls, h[j - 1], h[j]) ensures SoulTraced(h, pending - {j}, a, souls[a]) {
      assert SoulTraced(h, pending, a, souls[a]);
    }
  }

  lemma PassKeepsStores(h: seq<Registry>, pending: set<nat>, stores: map<AgentID, Option<Opened>>, j: nat)
    requires StoresTraced(h, pending, stores) && 0 < j < |h|
    ensures StoresTraced(h, pending - {j}, KeepStores(stores, h[j - 1], h[j]))
  {
    var kept := KeepStores(stores, h[j - 1], h[j]);
    forall a | a in kept && kept[a].Some? ensures StoreTraced(h, pending - {j}, a, kept[a].value) {
      assert StoreTraced(h, pending, a, stores[a].value);
    }
  }

  lemma InvalidateKeeps(s: State, j: nat)
    requires Inv(s) && Enabled(s, Invalidate(j))
    ensures Inv(Apply(s, Invalidate(j)))
  {
    PassKeepsSouls(s.history, s.pending, s.souls, j);
    PassKeepsStores(s.history, s.pending, s.stores, j);
  }

  lemma StoresOpenedKeeps(s: State, ok: bool)
    requires Inv(s) && Enabled(s, StoresOpened(ok))
    ensures Inv(Apply(s, StoresOpened(ok)))
  {
  }

  lemma HistoryMissKeeps(s: State, a: AgentID)
    requires Inv(s) && Enabled(s, HistoryMiss(a))
    ensures Inv(Apply(s, HistoryMiss(a)))
  {
  }

  lemma StepKeepsInv(s: State, a: Action)
    requires Inv(s) && Enabled(s, a)
    ensures Inv(Apply(s, a))
  {
    match a
    case Swap(r) => SwapKeeps(s, r);
    case Invalidate(j) => InvalidateKeeps(s, j);
    case SoulOpened =>
    case StoresOpened(ok) => StoresOpenedKeeps(s, ok);
    case SoulMiss(x) =>
    case HistoryMiss(x) => HistoryMissKeeps(s, x);
    case Close =>
  }

  ghost predicate IsRun(states: seq<State>, acts: seq<Action>) {
    && |states| == |acts| + 1
    && (exists r: Registry :: states[0] == Init(r))
    && forall i | 0 <= i < |acts| :: Enabled(states[i], acts[i]) && states[i + 1] == Apply(states[i], acts[i])
  }

  lemma {:induction false} RunKeepsInv(states: seq<State>, acts: seq<Action>, n: nat)
    requires IsRun(states, acts) && n < |states|
    ensures Inv(states[n])
  {
    if n > 0 {
      RunKeepsInv(states, acts, n - 1);
      StepKeepsInv(states[n - 1], acts[n - 1]);
    }
  }

  // ----- coherence -----

  lemma {:induction false} SoulUnchanged(s: State, a: AgentID, b: nat, n: nat)
    requires b <= n < |s.history| && HasSoul(s.history[b], a)
    requires forall j | b < j <= n :: !DropsSoul(s.history[j - 1], s.history[j], a)
    ensures HasSoul(s.history[n], a) && s.history[n][a].dataDir == s.history[b][a].dataDir
    decreases n
  {
    if b < n {
      SoulUnchanged(s, a, b, n - 1);
      assert !DropsSoul(s.history[n - 1], s.history[n], a);
    }
  }

  lemma {:induction false} StoreUnchanged(s: State, a: AgentID, b: nat, n: nat)
    requires b <= n < |s.history| && HasMemory(s.history[b], a)
    requires forall j | b < j <= n :: !DropsStore(s.history[j - 1], s.history[j], a)
    ensures HasMemory(s.history[n], a) && s.history[n][a].dataDir == s.history[b][a].dataDir
    decreases n
  {
    if b < n {
      StoreUnchanged(s, a, b, n - 1);
      assert !DropsStore(s.history[n - 1], s.history[n], a);
    }
  }

  ghost predicate SoulCurrent(s: State, a: AgentID, dir: string)
    requires s.history != []
  {
    HasSoul(Current(s), a) && Current(s)[a].dataDir == dir
  }

  ghost predicate StoreCurrent(s: State, a: AgentID, dir: string)
    requires s.history != []
  {
    HasMemory(Current(s), a) && Current(s)[a].dataDir == dir
  }

  lemma StaleSoulIsPending(s: State, a: AgentID)
    requires Inv(s) && a in s.souls && !SoulCurrent(s, a, s.souls[a].dir)
    ensures exists j :: j in s.pending && s.souls[a].born < j < |s.history|
                   && DropsSoul(s.history[j - 1], s.history[j], a)
  {
    if forall j | s.souls[a].born < j < |s.history| :: !DropsSoul(s.history[j - 1], s.history[j], a) {
      SoulUnchanged(s, a, s.souls[a].born, |s.history| - 1);
    }
  }

  lemma StaleStoreIsPending(s: State, a: AgentID)
    requires Inv(s) && a in s.stores && s.stores[a].Some? && !StoreCurrent(s, a, s.stores[a].value.dir)
    ensures exists j :: j in s.pending && s.stores[a].value.born < j < |s.history|
                   && DropsStore(s.history[j - 1], s.history[j], a)
  {
    if forall j | s.stores[a].value.born < j < |s.history| :: !DropsStore(s.history[j - 1], s.history[j], a) {
      StoreUnchanged(s, a, s.stores[a].value.born, |s.history| - 1);
    }
  }

  /** A cached entry that the current registry would not give is always about
      to be dropped: some Reload that replaced this agent's configuration after
      the entry was read has yet to run its pass. */
  lemma StaleEntryIsPending(states: seq<State>, acts: seq<Action>, n: nat, a: AgentID)
    requires IsRun(states, acts) && n < |states|
    ensures states[n].history != []
    ensures a in states[n].souls && !SoulCurrent(states[n], a, states[n].souls[a].dir) ==>
              exists j :: j in states[n].pending && states[n].souls[a].born < j < |states[n].history|
                     && DropsSoul(states[n].history[j - 1], states[n].history[j], a)
    ensures a in states[n].stores && states[n].stores[a].Some?
              && !StoreCurrent(states[n], a, states[n].stores[a].value.dir) ==>
              exists j :: j in states[n].pending && states[n].stores[a].value.born < j < |states[n].history|
                     && DropsStore(states[n].history[j - 1], states[n].history[j], a)
  {
    RunKeepsInv(states, acts, n);
    var s := states[n];
    if a in s.souls && !SoulCurrent(s, a, s.souls[a].dir) {
      StaleSoulIsPending(s, a);
    }
    if a in s.stores && s.stores[a].Some? && !StoreCurrent(s, a, s.stores[a].value.dir) {
      StaleStoreIsPending(s, a);
    }
  }

  /** Once every Reload that swapped has finished its pass, each cached soul
      loader and each non-nil cached history or fact store was opened with what
      the current registry gives that agent, whatever the interleaving. */
  lemma CoherentWhenSettled(states: seq<State>, acts: seq<Action>, n: nat)
    requires IsRun(states, acts) && n < |states| && states[n].pending == {}
    ensures states[n].history != []
    ensures forall a | a in states[n].souls :: SoulCurrent(states[n], a, states[n].souls[a].dir)
    ensures forall a | a in states[n].stores && states[n].stores[a].Some? ::
              StoreCurrent(states[n], a, states[n].stores[a].value.dir)
    ensures forall a | a in states[n].facts :: StoreCurrent(states[n], a, states[n].facts[a].dir)
  {
    RunKeepsInv(states, acts, n);
    var s := states[n];
    forall a ensures a in s.souls ==> SoulCurrent(s, a, s.souls[a].dir)
             ensures a in s.stores && s.stores[a].Some? ==> StoreCurrent(s, a, s.stores[a].value.dir)
    {
      StaleEntryIsPending(states, acts, n, a);
    }
  }

  /** The proviso is needed: between the swap and the pass, a loader of the
      replaced directory is still served. */
  lemma StaleBetweenSwapAndPass(a: AgentID)
    ensures exists states: seq<State>, acts: seq<Action> ::
      && IsRun(states, acts) && |states| == 4 && states[3].history != [] && a in states[3].souls
      && !SoulCurrent(states[3], a, states[3].souls[a].dir)
  {
    var r0: Registry, r1: Registry := map[a := AgentConfig("x", true)], map[a := AgentConfig("y", true)];
    var s0 := Init(r0);
    var s1 := Apply(s0, SoulMiss(a));
    var s2 := Apply(s1, SoulOpened);
    var s3 := Apply(s2, Swap(r1));
    assert IsRun([s0, s1, s2, s3], [SoulMiss(a), SoulOpened, Swap(r1)]);
    assert s3.souls[a].dir == "x" && Current(s3)[a].dataDir == "y";
  }

  // ---------------------------------------------------------------------
  // The locked sections on the mutable caches
  // ---------------------------------------------------------------------

  class Factory {
    var registry: Registry
    var souls: map<AgentID, string>
    var stores: map<AgentID, Option<string>>
    var factStores: map<AgentID, string>

    constructor (r: Registry)
      ensures registry == r && souls == map[] && stores == map[] && factStores == map[]
    {
      registry, souls, stores, factStores := r, map[], map[], map[];
    }

    /** The atomic swap at the head of Reload. */
    method SwapRegistry(newRegistry: Registry) returns (previous: Registry)
      modifies this`registry
      ensures previous == old(registry) && registry == newRegistry
    {
      previous, registry := registry, newRegistry;
    }

    /** The pass of Reload over the caches, for the pair that its swap saw.
        It drops exactly the entries whose configuration changed. */
    method InvalidatePass(previous: Registry, newRegistry: Registry)
      modifies this
      ensures registry == old(registry)
      ensures souls == KeepSouls(old(souls), previous, newRegistry)
      ensures stores == KeepStores(old(stores), previous, newRegistry)
      ensures factStores == KeepFacts(old(factStores), old(stores), previous, newRegistry)
    {
      InvalidateSouls(previous, newRegistry);
      InvalidateStores(previous, newRegistry);
    }

    method InvalidateSouls(previous: Registry, newRegistry: Registry)
      modifies this`souls
      ensures souls == KeepSouls(old(souls), previous, newRegistry)
    {
      var todo := souls.Keys;
      while todo != {}
        invariant todo <= souls.Keys <= old(souls).Keys
        invariant forall a | a in old(souls) && (a in todo || !DropsSoul(previous, newRegistry, a)) :: a in souls
        invariant forall a | a in souls ::
          souls[a] == old(souls)[a] && (a in todo || !DropsSoul(previous, newRegistry, a))
        decreases todo
      {
        var agentID :| agentID in todo;
        todo := todo - {agentID};
        if agentID !in newRegistry
           || (agentID in previous && previous[agentID].dataDir != newRegistry[agentID].dataDir) {
          souls := souls - {agentID};
        }
      }
    }

    method InvalidateStores(previous: Registry, newRegistry: Registry)
      modifies this`stores, this`factStores
      ensures stores == KeepStores(old(stores), previous, newRegistry)
      ensures factStores == KeepFacts(old(factStores), old(stores), previous, newRegistry)
    {
      var todo := stores.Keys;
      while todo != {}
        invariant todo <= stores.Keys <= old(stores).Keys && factStores.Keys <= old(factStores).Keys
        invariant forall a | a in old(stores) && (a in todo || !DropsStore(previous, newRegistry, a)) :: a in stores
        invariant forall a | a in stores ::
          stores[a] == old(stores)[a] && (a in todo || !DropsStore(previous, newRegistry, a))
        invariant forall a | a in old(factStores) ::
          a in factStores <==> a !in old(stores) || a in todo || !DropsStore(previous, newRegistry, a)
        invariant forall a | a in factStores :: factStores[a] == old(factStores)[a]
        decreases todo
      {
        var agentID :| agentID in todo;
        todo := todo - {agentID};
        if agentID !in newRegistry {
          stores, factStores := stores - {agentID}, factStores - {agentID};
          continue;
        }
        if agentID in previous
           && (previous[agentID].dataDir != newRegistry[agentID].dataDir
               || previous[agentID].memoryEnabled != newRegistry[agentID].memoryEnabled) {
          stores, factStores := stores - {agentID}, factStores - {agentID};
        }
      }
    }

    /** Returns the directory whose SOUL.md is loaded; none for the default prompt. */
    method ResolveSoul(agentID: AgentID) returns (dir: Option<string>)
      modifies this`souls
      ensures agentID in old(souls) ==> dir == Some(old(souls)[agentID]) && souls == old(souls)
      ensures agentID !in old(souls) && HasSoul(registry, agentID) ==>
                dir == Some(registry[agentID].dataDir) && souls == old(souls)[agentID := registry[agentID].dataDir]
      ensures agentID !in old(souls) && !HasSoul(registry, agentID) ==> dir == None && souls == old(souls)
    {
      if agentID in souls {
        return Some(souls[agentID]);
      }
      if agentID !in registry || registry[agentID].dataDir == "" {
        return None;
      }
      souls := souls[agentID := registry[agentID].dataDir];
      return Some(registry[agentID].dataDir);
    }

    /** `opens` tells whether the database of the agent can be opened. */
    method ResolveHistory(agentID: AgentID, opens: bool) returns (store: Option<string>)
      modifies this`stores, this`factStores
      ensures agentID in stores && store == stores[agentID]
      ensures agentID in old(stores) ==> stores == old(stores) && factStores == old(factStores)
      ensures agentID !in old(stores) && HasMemory(registry, agentID) && opens ==>
                && stores == old(stores)[agentID := Some(registry[agentID].dataDir)]
                && factStores == old(factStores)[agentID := registry[agentID].dataDir]
      ensures agentID !in old(stores) && !(HasMemory(registry, agentID) && opens) ==>
                stores == old(stores)[agentID := None] && factStores == old(factStores)
    {
      if agentID in stores {
        return stores[agentID];
      }
      if agentID !in registry || !registry[agentID].memoryEnabled || registry[agentID].dataDir == "" || !opens {
        stores := stores[agentID := None];
        return None;
      }
      stores := stores[agentID := Some(registry[agentID].dataDir)];
      factStores := factStores[agentID := registry[agentID].dataDir];
      return stores[agentID];
    }

    /** The fact store is opened by way of the history store; an agent that has
        a cached history entry gets what is cached, and nothing is reopened. */
    method ResolveFactStore(agentID: AgentID, opens: bool) returns (store: Option<string>)
      modifies this`stores, this`factStores
      ensures store == if agentID in factStores then Some(factStores[agentID]) else None
      ensures agentID in old(factStores) ==> stores == old(stores) && factStores == old(factStores)
      ensures agentID !in old(factStores) && agentID in old(stores) ==> store == None && stores == old(stores)
      ensures agentID !in old(factStores) && agentID !in old(stores) ==>
                (store.Some? <==> HasMemory(registry, agentID) && opens)
    {
      if agentID in factStores {
        return Some(factStores[agentID]);
      }
      var _ := ResolveHistory(agentID, opens);
      store := if agentID in factStores then Some(factStores[agentID]) else None;
    }
  }
}
