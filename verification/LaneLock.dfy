/** The per-session mutex table of the router (internal/router/lane.go).

  Every critical section of the source is a function on the shared `Table`.
  The class `LaneLock` runs those sections on mutable lanes; the state machine
  below interleaves them for any number of threads and any number of keys. */
module LaneLocks {

  datatype SessionKey = SessionKey(channel: string, chatID: string, threadID: string)

  type LaneId = nat
  type Tid = nat

  /** The metadata of one lane, with its own mutex: free, or locked by a thread.
      `key` is the key that the lane was created for. */
  datatype LaneData = LaneData(key: SessionKey, refs: int, stale: bool, holder: Holder)

  datatype Holder = Free | By(t: Tid)

  /** `lanes` is the map guarded by the global mutex; `data` also covers lanes
      that have been deleted from the map but that a thread still points to. */
  datatype Table = Table(lanes: map<SessionKey, LaneId>, data: map<LaneId, LaneData>)

  function NewLane(k: SessionKey): LaneData { LaneData(k, 0, false, Free) }

  function DataOf(tb: Table, l: LaneId, k: SessionKey): LaneData {
    if l in tb.data then tb.data[l] else NewLane(k)
  }

  function LaneFor(tb: Table, k: SessionKey, newLane: LaneId): LaneId {
    if k in tb.lanes then tb.lanes[k] else newLane
  }

  /** First section of Acquire and of TryAcquire. */
  function Enter(tb: Table, k: SessionKey, newLane: LaneId): Table {
    var l := LaneFor(tb, k, newLane);
    var d := DataOf(tb, l, k);
    Table(tb.lanes[k := l], tb.data[l := d.(refs := d.refs + 1, stale := false)])
  }

  /** Section of Release and of the undo path of TryAcquire: drop one reference
      and delete the map entry if the lane became unused while stale. */
  function Drop(tb: Table, k: SessionKey, l: LaneId): Table {
    var d := DataOf(tb, l, k);
    var d' := d.(refs := d.refs - 1);
    Table(if d'.refs == 0 && d'.stale then tb.lanes - {k} else tb.lanes, tb.data[l := d'])
  }

  predicate Mapped(tb: Table, l: LaneId) {
    l in tb.data && tb.data[l].key in tb.lanes && tb.lanes[tb.data[l].key] == l
  }

  /** Cleanup after it has visited the keys in `done`: every visited lane is
      marked, and the unused inactive ones among them are deleted. */
  function SweepPart(tb: Table, active: set<SessionKey>, done: set<SessionKey>): Table {
    Table(
      map k | k in tb.lanes && (k !in done || k in active || DataOf(tb, tb.lanes[k], k).refs != 0) :: tb.lanes[k],
      map l | l in tb.data ::
        if Mapped(tb, l) && tb.data[l].key in done
        then tb.data[l].(stale := tb.data[l].key !in active) else tb.data[l])
  }

  function Sweep(tb: Table, active: set<SessionKey>): Table {
    SweepPart(tb, active, tb.lanes.Keys)
  }

  /** One iteration of the Cleanup loop. */
  function SweepOne(tb: Table, active: set<SessionKey>, k: SessionKey): Table {
    if k !in tb.lanes then tb else
    var l := tb.lanes[k];
    var d := DataOf(tb, l, k).(stale := k !in active);
    Table(if k !in active && d.refs == 0 then tb.lanes - {k} else tb.lanes, tb.data[l := d])
  }

  function SweepAll(tb: Table, active: set<SessionKey>, order: seq<SessionKey>): Table {
    if order == [] then tb
    else SweepOne(SweepAll(tb, active, order[..|order| - 1]), active, order[|order| - 1])
  }

  /** Locking or unlocking the mutex of a lane. */
  function SetHolder(tb: Table, l: LaneId, h: Holder): Table {
    if l !in tb.data then tb else tb.(data := tb.data[l := tb.data[l].(holder := h)])
  }

  // ---------------------------------------------------------------------
  // Interleavings
  // ---------------------------------------------------------------------

  /** Where a thread stands inside one Acquire/TryAcquire ... Release bracket.
      A thread outside any bracket is absent from the map of threads. */
  datatype PC =
    | Waiting(key: SessionKey, lane: LaneId)    // Acquire, before ln.mu.Lock returns
    | Trying(key: SessionKey, lane: LaneId)     // TryAcquire, before TryLock
    | Undoing(key: SessionKey, lane: LaneId)    // TryLock failed, undo still to come
    | Holding(key: SessionKey, lane: LaneId)    // between the returned call and Release
    | Unlocking(key: SessionKey, lane: LaneId)  // Release, map updated, mutex not yet unlocked

  datatype State = State(tb: Table, threads: map<Tid, PC>)

  datatype Action =
    | AcquireEnter(t: Tid, key: SessionKey, newLane: LaneId)
    | Lock(t: Tid)
    | TryEnter(t: Tid, key: SessionKey, newLane: LaneId)
    | TryLock(t: Tid)
    | TryFail(t: Tid)
    | Undo(t: Tid)
    | ReleaseDrop(t: Tid)
    | Unlock(t: Tid)
    | Cleanup(active: set<SessionKey>)

  function Init(): State { State(Table(map[], map[]), map[]) }

  ghost predicate Enabled(s: State, a: Action) {
    match a
    case AcquireEnter(t, k, newLane) => t !in s.threads && newLane !in s.tb.data
    case TryEnter(t, k, newLane) => t !in s.threads && newLane !in s.tb.data
    case Lock(t) =>
      t in s.threads && s.threads[t].Waiting? && DataOf(s.tb, s.threads[t].lane, s.threads[t].key).holder.Free?
    case TryLock(t) =>
      t in s.threads && s.threads[t].Trying? && DataOf(s.tb, s.threads[t].lane, s.threads[t].key).holder.Free?
    // A TryLock may fail even on a free mutex that is being handed over.
    case TryFail(t) => t in s.threads && s.threads[t].Trying?
    case Undo(t) => t in s.threads && s.threads[t].Undoing?
    case ReleaseDrop(t) => t in s.threads && s.threads[t].Holding?
    case Unlock(t) => t in s.threads && s.threads[t].Unlocking?
    case Cleanup(_) => true
  }

  ghost function Apply(s: State, a: Action): State
    requires Enabled(s, a)
  {
    match a
    case AcquireEnter(t, k, newLane) =>
      State(Enter(s.tb, k, newLane), s.threads[t := Waiting(k, LaneFor(s.tb, k, newLane))])
    case TryEnter(t, k, newLane) =>
      State(Enter(s.tb, k, newLane), s.threads[t := Trying(k, LaneFor(s.tb, k, newLane))])
    case Lock(t) =>
      var p := s.threads[t];
      State(SetHolder(s.tb, p.lane, By(t)), s.threads[t := Holding(p.key, p.lane)])
    case TryLock(t) =>
      var p := s.threads[t];
      State(SetHolder(s.tb, p.lane, By(t)), s.threads[t := Holding(p.key, p.lane)])
    case TryFail(t) =>
      var p := s.threads[t];
      s.(threads := s.threads[t := Undoing(p.key, p.lane)])
    case Undo(t) =>
      var p := s.threads[t];
      State(Drop(s.tb, p.key, p.lane), s.threads - {t})
    case ReleaseDrop(t) =>
      // Release looks the lane up again by key; it does not remember it.
      var k := s.threads[t].key;
      if k !in s.tb.lanes then s.(threads := s.threads - {t})
      else State(Drop(s.tb, k, s.tb.lanes[k]), s.threads[t := Unlocking(k, s.tb.lanes[k])])
    case Unlock(t) =>
      State(SetHolder(s.tb, s.threads[t].lane, Free), s.threads - {t})
    case Cleanup(active) => s.(tb := Sweep(s.tb, active))
  }

  /** The threads that are counted by `refs`: waiting, holding, or about to undo. */
  ghost function Users(threads: map<Tid, PC>, l: LaneId): set<Tid> {
    set t | t in threads && threads[t].lane == l && !threads[t].Unlocking?
  }

  ghost predicate Locks(p: PC) { p.Holding? || p.Unlocking? }

  ghost predicate LanesMapped(tb: Table) {
    forall k | k in tb.lanes :: tb.lanes[k] in tb.data && tb.data[tb.lanes[k]].key == k
  }

  ghost predicate ThreadsMapped(tb: Table, threads: map<Tid, PC>) {
    forall t | t in threads ::
      && threads[t].lane in tb.data && tb.data[threads[t].lane].key == threads[t].key
      && (!threads[t].Unlocking? ==> Mapped(tb, threads[t].lane))
  }

  ghost predicate RefsExact(data: map<LaneId, LaneData>, threads: map<Tid, PC>) {
    forall l | l in data :: data[l].refs == |Users(threads, l)|
  }

  ghost predicate LocksExact(data: map<LaneId, LaneData>, threads: map<Tid, PC>) {
    && (forall t | t in threads && Locks(threads[t]) ::
          threads[t].lane in data && data[threads[t].lane].holder == By(t))
    && (forall l, t {:trigger By(t), data[l]} | l in data && data[l].holder == By(t) ::
          t in threads && Locks(threads[t]) && threads[t].lane == l)
  }

  ghost predicate NoDeadEntries(tb: Table) {
    forall l | l in tb.data && Mapped(tb, l) :: !(tb.data[l].stale && tb.data[l].refs == 0)
  }

  ghost predicate Inv(s: State) {
    && LanesMapped(s.tb) && NoDeadEntries(s.tb)
    && ThreadsMapped(s.tb, s.threads) && RefsExact(s.tb.data, s.threads) && LocksExact(s.tb.data, s.threads)
  }

  // ----- each step keeps the invariant -----

  lemma UsersAfterEnter(threads: map<Tid, PC>, t: Tid, p: PC)
    requires t !in threads && !p.Unlocking?
    ensures |Users(threads[t := p], p.lane)| == |Users(threads, p.lane)| + 1
    ensures forall m | m != p.lane :: Users(threads[t := p], m) == Users(threads, m)
  {
    assert Users(threads[t := p], p.lane) == Users(threads, p.lane) + {t};
  }

  lemma UsersAfterLeaving(threads: map<Tid, PC>, t: Tid)
    requires t in threads && !threads[t].Unlocking?
    ensures |Users(threads - {t}, threads[t].lane)| == |Users(threads, threads[t].lane)| - 1
    ensures forall m | m != threads[t].lane :: Users(threads - {t}, m) == Users(threads, m)
  {
    assert Users(threads, threads[t].lane) == Users(threads - {t}, threads[t].lane) + {t};
  }

  lemma UsersAfterDrop(threads: map<Tid, PC>, t: Tid, threads': map<Tid, PC>)
    requires t in threads && !threads[t].Unlocking?
    requires threads' == threads - {t}
          || (t in threads' && threads'[t].Unlocking? && threads' == threads[t := threads'[t]])
    ensures |Users(threads', threads[t].lane)| == |Users(threads, threads[t].lane)| - 1
    ensures forall m | m != threads[t].lane :: Users(threads', m) == Users(threads, m)
  {
    UsersAfterLeaving(threads, t);
    forall m ensures Users(threads', m) == Users(threads - {t}, m) {
    }
  }

  lemma UsersUnchanged(threads: map<Tid, PC>, t: Tid, threads': map<Tid, PC>)
    requires t in threads
    requires (threads[t].Unlocking? && threads' == threads - {t})
          || (t in threads' && threads' == threads[t := threads'[t]]
              && threads'[t].lane == threads[t].lane && !threads[t].Unlocking? && !threads'[t].Unlocking?)
    ensures forall m :: Users(threads', m) == Users(threads, m)
  {
  }

  lemma EnterKeepsRefs(tb: Table, threads: map<Tid, PC>, t: Tid, newLane: LaneId, p: PC)
    requires LanesMapped(tb) && ThreadsMapped(tb, threads) && RefsExact(tb.data, threads)
    requires t !in threads && newLane !in tb.data && !p.Unlocking? && p.lane == LaneFor(tb, p.key, newLane)
    ensures RefsExact(Enter(tb, p.key, newLane).data, threads[t := p])
  {
    UsersAfterEnter(threads, t, p);
    if p.key !in tb.lanes {
      assert Users(threads, newLane) == {};
    }
  }

  lemma EnterKeepsMaps(tb: Table, threads: map<Tid, PC>, t: Tid, newLane: LaneId, p: PC)
    requires LanesMapped(tb) && ThreadsMapped(tb, threads) && NoDeadEntries(tb)
    requires t !in threads && newLane !in tb.data && p.lane == LaneFor(tb, p.key, newLane)
    ensures var tb' := Enter(tb, p.key, newLane);
            LanesMapped(tb') && NoDeadEntries(tb') && ThreadsMapped(tb', threads[t := p])
  {
  }

  lemma EnterKeepsLocks(tb: Table, threads: map<Tid, PC>, t: Tid, newLane: LaneId, p: PC)
    requires LanesMapped(tb) && LocksExact(tb.data, threads)
    requires t !in threads && newLane !in tb.data && !Locks(p)
    ensures LocksExact(Enter(tb, p.key, newLane).data, threads[t := p])
  {
  }

  lemma LockKeepsLocks(data: map<LaneId, LaneData>, threads: map<Tid, PC>, t: Tid)
    requires LocksExact(data, threads) && t in threads && !Locks(threads[t])
    requires threads[t].lane in data && data[threads[t].lane].holder.Free?
    ensures LocksExact(data[threads[t].lane := data[threads[t].lane].(holder := By(t))],
                       threads[t := Holding(threads[t].key, threads[t].lane)])
  {
  }

  lemma LockKeepsMaps(tb: Table, threads: map<Tid, PC>, t: Tid)
    requires LanesMapped(tb) && NoDeadEntries(tb) && ThreadsMapped(tb, threads)
    requires t in threads && (threads[t].Waiting? || threads[t].Trying?)
    ensures var tb' := SetHolder(tb, threads[t].lane, By(t));
      && LanesMapped(tb') && NoDeadEntries(tb')
      && ThreadsMapped(tb', threads[t := Holding(threads[t].key, threads[t].lane)])
  {
  }

  lemma HolderKeepsRefs(tb: Table, threads: map<Tid, PC>, l: LaneId, h: Holder, threads': map<Tid, PC>)
    requires RefsExact(tb.data, threads) && forall m :: Users(threads', m) == Users(threads, m)
    ensures RefsExact(SetHolder(tb, l, h).data, threads')
  {
    forall m | m in tb.data ensures |Users(threads', m)| == tb.data[m].refs {
      assert Users(threads', m) == Users(threads, m);
    }
  }

  lemma LockKeeps(s: State, t: Tid)
    requires Inv(s) && t in s.threads && (s.threads[t].Waiting? || s.threads[t].Trying?)
    requires s.tb.data[s.threads[t].lane].holder.Free?
    ensures Inv(State(SetHolder(s.tb, s.threads[t].lane, By(t)),
                      s.threads[t := Holding(s.threads[t].key, s.threads[t].lane)]))
  {
    var threads' := s.threads[t := Holding(s.threads[t].key, s.threads[t].lane)];
    UsersUnchanged(s.threads, t, threads');
    HolderKeepsRefs(s.tb, s.threads, s.threads[t].lane, By(t), threads');
    LockKeepsMaps(s.tb, s.threads, t);
    LockKeepsLocks(s.tb.data, s.threads, t);
  }

  lemma TryFailKeeps(s: State, t: Tid)
    requires Inv(s) && t in s.threads && s.threads[t].Trying?
    ensures Inv(s.(threads := s.threads[t := Undoing(s.threads[t].key, s.threads[t].lane)]))
  {
    UsersUnchanged(s.threads, t, s.threads[t := Undoing(s.threads[t].key, s.threads[t].lane)]);
  }

  /** The threads after thread t has dropped its reference. */
  ghost predicate Dropped(threads: map<Tid, PC>, t: Tid, threads': map<Tid, PC>) {
    && t in threads && (threads[t].Undoing? || threads[t].Holding?)
    && threads' == if threads[t].Undoing? then threads - {t}
                   else threads[t := Unlocking(threads[t].key, threads[t].lane)]
  }

  lemma DropKeepsCounts(tb: Table, threads: map<Tid, PC>, t: Tid, threads': map<Tid, PC>)
    requires LanesMapped(tb) && ThreadsMapped(tb, threads) && NoDeadEntries(tb)
    requires RefsExact(tb.data, threads) && Dropped(threads, t, threads')
    ensures var tb' := Drop(tb, threads[t].key, threads[t].lane);
            LanesMapped(tb') && NoDeadEntries(tb') && RefsExact(tb'.data, threads')
  {
    UsersAfterDrop(threads, t, threads');
  }

  lemma DropKeepsLocks(tb: Table, threads: map<Tid, PC>, t: Tid, threads': map<Tid, PC>)
    requires ThreadsMapped(tb, threads) && LocksExact(tb.data, threads) && Dropped(threads, t, threads')
    ensures LocksExact(Drop(tb, threads[t].key, threads[t].lane).data, threads')
  {
  }

  /** Dropping the last reference may delete the entry: no other thread can be
      using it, because every user of a lane is counted. */
  lemma DropKeepsThreads(tb: Table, threads: map<Tid, PC>, t: Tid, threads': map<Tid, PC>)
    requires LanesMapped(tb) && ThreadsMapped(tb, threads) && Dropped(threads, t, threads')
    requires RefsExact(Drop(tb, threads[t].key, threads[t].lane).data, threads')
    ensures ThreadsMapped(Drop(tb, threads[t].key, threads[t].lane), threads')
  {
    var tb' := Drop(tb, threads[t].key, threads[t].lane);
    forall u | u in threads' && !threads'[u].Unlocking?
      ensures Mapped(tb', threads'[u].lane)
    {
      if threads'[u].lane == threads[t].lane {
        assert u in Users(threads', threads[t].lane);
      }
    }
  }

  lemma UnlockKeepsLocks(data: map<LaneId, LaneData>, threads: map<Tid, PC>, t: Tid)
    requires LocksExact(data, threads) && t in threads && threads[t].lane in data && threads[t].Unlocking?
    ensures LocksExact(data[threads[t].lane := data[threads[t].lane].(holder := Free)], threads - {t})
  {
  }

  lemma UnlockKeeps(s: State, t: Tid)
    requires Inv(s) && t in s.threads && s.threads[t].Unlocking?
    ensures Inv(State(SetHolder(s.tb, s.threads[t].lane, Free), s.threads - {t}))
  {
    UsersUnchanged(s.threads, t, s.threads - {t});
    UnlockKeepsLocks(s.tb.data, s.threads, t);
  }

  /** What a Cleanup cannot change: lanes in use stay mapped, and no key,
      reference count or mutex is touched. */
  ghost predicate SweepFrame(tb: Table, tb': Table) {
    && tb'.data.Keys == tb.data.Keys
    && (forall l | l in tb.data :: tb'.data[l] == tb.data[l].(stale := tb'.data[l].stale))
    && (forall k | k in tb'.lanes :: k in tb.lanes && tb'.lanes[k] == tb.lanes[k])
    && (forall l | l in tb.data && Mapped(tb, l) && tb.data[l].refs != 0 :: Mapped(tb', l))
    && NoDeadEntries(tb')
  }

  lemma CleanupKeeps(s: State, tb': Table)
    requires Inv(s) && SweepFrame(s.tb, tb')
    ensures Inv(s.(tb := tb'))
  {
    forall t | t in s.threads && !s.threads[t].Unlocking?
      ensures Mapped(tb', s.threads[t].lane)
    {
      assert t in Users(s.threads, s.threads[t].lane);
    }
  }

  /** Every step of every thread keeps the invariant. */
  lemma StepKeepsInv(s: State, a: Action)
    requires Inv(s) && Enabled(s, a)
    ensures Inv(Apply(s, a))
  {
    var s' := Apply(s, a);
    match a
    case AcquireEnter(t, k, newLane) =>
      EnterKeepsRefs(s.tb, s.threads, t, newLane, s'.threads[t]);
      EnterKeepsMaps(s.tb, s.threads, t, newLane, s'.threads[t]);
      EnterKeepsLocks(s.tb, s.threads, t, newLane, s'.threads[t]);
    case TryEnter(t, k, newLane) =>
      EnterKeepsRefs(s.tb, s.threads, t, newLane, s'.threads[t]);
      EnterKeepsMaps(s.tb, s.threads, t, newLane, s'.threads[t]);
      EnterKeepsLocks(s.tb, s.threads, t, newLane, s'.threads[t]);
    case Lock(t) => LockKeeps(s, t);
    case TryLock(t) => LockKeeps(s, t);
    case TryFail(t) => TryFailKeeps(s, t);
    case Undo(t) =>
      DropKeepsCounts(s.tb, s.threads, t, s'.threads);
      DropKeepsLocks(s.tb, s.threads, t, s'.threads);
      DropKeepsThreads(s.tb, s.threads, t, s'.threads);
    case ReleaseDrop(t) =>
      DropKeepsCounts(s.tb, s.threads, t, s'.threads);
      DropKeepsLocks(s.tb, s.threads, t, s'.threads);
      DropKeepsThreads(s.tb, s.threads, t, s'.threads);
    case Unlock(t) => UnlockKeeps(s, t);
    case Cleanup(active) =>
      CleanupKeeps(s, s'.tb);
  }

  // ----- whole runs -----

  /** A run: the states visited from the empty table by a sequence of steps. */
  ghost predicate IsRun(states: seq<State>, acts: seq<Action>) {
    && |states| == |acts| + 1
    && states[0] == Init()
    && forall i | 0 <= i < |acts| :: Enabled(states[i], acts[i]) && states[i + 1] == Apply(states[i], acts[i])
  }

  lemma {:induction false} RunKeepsInv(states: seq<State>, acts: seq<Action>, n: nat)
    requires IsRun(states, acts) && n < |states|
    ensures Inv(states[n])
  {
    if n == 0 {
      assert forall l :: Users(map[], l) == {};
    } else {
      RunKeepsInv(states, acts, n - 1);
      StepKeepsInv(states[n - 1], acts[n - 1]);
    }
  }

  /** In every reachable state `refs` counts exactly the threads that wait on
      the lane, hold it or have yet to undo a failed try; and a lane that is
      used is the one mapped at the key its users asked for. */
  lemma RefsCountUsers(states: seq<State>, acts: seq<Action>, n: nat, l: LaneId)
    requires IsRun(states, acts) && n < |states| && l in states[n].tb.data
    ensures states[n].tb.data[l].refs == |Users(states[n].threads, l)|
    ensures states[n].tb.data[l].refs > 0 ==> Mapped(states[n].tb, l)
    ensures forall t | t in Users(states[n].threads, l) :: states[n].threads[t].key == states[n].tb.data[l].key
  {
    RunKeepsInv(states, acts, n);
    if states[n].tb.data[l].refs > 0 {
      var t :| t in Users(states[n].threads, l);
    }
  }

  /** At most one thread per key is between a returned Acquire (or successful
      TryAcquire) and its Release, in every interleaving. */
  lemma MutualExclusion(states: seq<State>, acts: seq<Action>, n: nat, t: Tid, u: Tid)
    requires IsRun(states, acts) && n < |states|
    requires t in states[n].threads && u in states[n].threads
    requires states[n].threads[t].Holding? && states[n].threads[u].Holding?
    requires states[n].threads[t].key == states[n].threads[u].key
    ensures t == u
  {
    RunKeepsInv(states, acts, n);
  }

  /** Release finds, drops and unlocks the very lane that its Acquire locked,
      although it looks the lane up again; the unlocked mutex is locked. */
  lemma ReleaseFindsItsLane(states: seq<State>, acts: seq<Action>, n: nat, t: Tid)
    requires IsRun(states, acts) && n < |states| && t in states[n].threads
    ensures states[n].threads[t].Holding? ==>
              && states[n].threads[t].key in states[n].tb.lanes
              && states[n].tb.lanes[states[n].threads[t].key] == states[n].threads[t].lane
    ensures Locks(states[n].threads[t]) ==>
              && states[n].threads[t].lane in states[n].tb.data
              && states[n].tb.data[states[n].threads[t].lane].holder == By(t)
  {
    RunKeepsInv(states, acts, n);
  }

  /** No mapped lane is both stale and unreferenced: such an entry would never
      be collected by a Release. */
  lemma NoLeakedEntry(states: seq<State>, acts: seq<Action>, n: nat, k: SessionKey)
    requires IsRun(states, acts) && n < |states| && k in states[n].tb.lanes
    ensures states[n].tb.lanes[k] in states[n].tb.data
    ensures var d := states[n].tb.data[states[n].tb.lanes[k]]; d.stale ==> d.refs > 0
  {
    RunKeepsInv(states, acts, n);
  }

  lemma LockedByThread(s: State, l: LaneId)
    requires LocksExact(s.tb.data, s.threads) && l in s.tb.data
    ensures s.tb.data[l].holder.By? ==> s.tb.data[l].holder.t in s.threads
  {
    if s.tb.data[l].holder.By? {
      assert s.tb.data[l].holder == By(s.tb.data[l].holder.t);
    }
  }

  lemma HolderCanStep(s: State, t: Tid)
    requires ThreadsMapped(s.tb, s.threads) && LocksExact(s.tb.data, s.threads)
    requires t in s.threads && s.threads[t].Waiting?
    ensures Enabled(s, Lock(t))
         || exists u :: u != t && u in s.threads && s.threads[u].lane == s.threads[t].lane
                   && (Enabled(s, ReleaseDrop(u)) || Enabled(s, Unlock(u)))
  {
    var d := s.tb.data[s.threads[t].lane];
    if d.holder.By? {
      var u := d.holder.t;
      assert d.holder == By(u);
      assert Enabled(s, ReleaseDrop(u)) || Enabled(s, Unlock(u));
    }
  }

  /** Nobody waits on a dead lane: a blocked Acquire can lock now, or the mutex
      it waits for belongs to another thread that can step towards unlocking it. */
  lemma WaiterIsNeverStranded(states: seq<State>, acts: seq<Action>, n: nat, t: Tid)
    requires IsRun(states, acts) && n < |states| && t in states[n].threads && states[n].threads[t].Waiting?
    ensures Enabled(states[n], Lock(t))
         || exists u :: u != t && u in states[n].threads && states[n].threads[u].lane == states[n].threads[t].lane
                   && (Enabled(states[n], ReleaseDrop(u)) || Enabled(states[n], Unlock(u)))
  {
    RunKeepsInv(states, acts, n);
    HolderCanStep(states[n], t);
  }

  /** When no thread is inside a bracket, every lane is free and unreferenced,
      and a Cleanup leaves entries for active keys only. */
  lemma QuiescentCleanupCollects(states: seq<State>, acts: seq<Action>, n: nat, active: set<SessionKey>)
    requires IsRun(states, acts) && n < |states| && states[n].threads == map[]
    ensures forall l | l in states[n].tb.data :: states[n].tb.data[l].refs == 0 && states[n].tb.data[l].holder == Free
    ensures Sweep(states[n].tb, active).lanes.Keys == states[n].tb.lanes.Keys * active
  {
    RunKeepsInv(states, acts, n);
    var s := states[n];
    assert forall l :: Users(s.threads, l) == {};
    forall l | l in s.tb.data
      ensures s.tb.data[l].holder == Free
    {
      LockedByThread(s, l);
    }
  }

  // ---------------------------------------------------------------------
  // The critical sections on mutable lanes
  // ---------------------------------------------------------------------

  class Lane {
    ghost const id: LaneId
    ghost const key: SessionKey
    var refs: int
    var stale: bool
    var holder: Holder

    constructor (ghost id: LaneId, ghost key: SessionKey)
      ensures this.id == id && Data() == NewLane(key)
    {
      this.id, this.key := id, key;
      refs, stale, holder := 0, false, Free;
    }

    ghost function Data(): LaneData
      reads this
    {
      LaneData(key, refs, stale, holder)
    }
  }

  /** The table with an idle lane for one more key. */
  ghost function Added(tb: Table, k: SessionKey, l: LaneId): Table {
    Table(tb.lanes[k := l], tb.data[l := NewLane(k)])
  }

  /** The table with two fields of one lane rewritten. */
  ghost function Written(tb: Table, l: LaneId, refs: int, stale: bool): Table
    requires l in tb.data
  {
    Table(tb.lanes, tb.data[l := tb.data[l].(refs := refs, stale := stale)])
  }

  /** Entering makes sure that there is a lane and then rewrites it. */
  ghost function WithLane(tb: Table, k: SessionKey, newLane: LaneId): Table {
    if k in tb.lanes then tb else Added(tb, k, newLane)
  }

  lemma EnterRewrites(tb: Table, k: SessionKey, newLane: LaneId)
    requires k in tb.lanes ==> tb.lanes[k] in tb.data
    requires k !in tb.lanes ==> newLane !in tb.data
    ensures var l := LaneFor(tb, k, newLane);
      Enter(tb, k, newLane) == Written(WithLane(tb, k, newLane), l, DataOf(tb, l, k).refs + 1, false)
  {
    if k in tb.lanes {
      assert tb.lanes[k := tb.lanes[k]] == tb.lanes;
    } else {
      var d := NewLane(k).(refs := 1, stale := false);
      assert tb.data[newLane := NewLane(k)][newLane := d] == tb.data[newLane := d];
    }
  }

  lemma SweepStep(tb: Table, active: set<SessionKey>, done: set<SessionKey>, k: SessionKey)
    requires LanesMapped(tb) && k in tb.lanes
    ensures SweepOne(SweepPart(tb, active, done), active, k) == SweepPart(tb, active, done + {k})
  {
    var was, now := SweepPart(tb, active, done), SweepPart(tb, active, done + {k});
    assert now.lanes == SweepOne(was, active, k).lanes;
    assert now.data == SweepOne(was, active, k).data;
  }

  ghost function Range(order: seq<SessionKey>): set<SessionKey> { set k | k in order }

  lemma SweepAllSnoc(tb: Table, active: set<SessionKey>, order: seq<SessionKey>, k: SessionKey)
    ensures SweepAll(tb, active, order + [k]) == SweepOne(SweepAll(tb, active, order), active, k)
    ensures Range(order + [k]) == Range(order) + {k}
  {
    assert (order + [k])[..|order|] == order;
  }

  /** Whatever order the map is ranged over in, Cleanup computes `Sweep`. */
  lemma {:induction false} SweepAllIsSweep(tb: Table, active: set<SessionKey>, order: seq<SessionKey>)
    requires LanesMapped(tb) && Range(order) <= tb.lanes.Keys
    ensures SweepAll(tb, active, order) == SweepPart(tb, active, Range(order))
  {
    if order == [] {
      assert SweepPart(tb, active, {}).lanes == tb.lanes;
      assert SweepPart(tb, active, {}).data == tb.data;
    } else {
      var init, last := order[..|order| - 1], order[|order| - 1];
      assert Range(order) == Range(init) + {last};
      SweepAllIsSweep(tb, active, init);
      SweepStep(tb, active, Range(init), last);
    }
  }

  class LaneLock {
    var lanes: map<SessionKey, Lane>
    ghost var all: map<LaneId, Lane>  // every lane ever created
    ghost var repr: set<Lane>
    ghost var next: LaneId
    ghost var view: Table             // the abstract table that the lanes implement

    ghost predicate Valid()
      reads this, repr
    {
      && view.lanes.Keys == lanes.Keys && view.data.Keys == all.Keys
      && (forall i | i in all :: Shown(i))
      && (forall k | k in lanes :: view.lanes[k] in all && all[view.lanes[k]] == lanes[k])
    }

    /** The view has lane i as it is. */
    ghost predicate Shown(i: LaneId)
      requires i in all && i in view.data
      reads this, repr
    {
      i < next && all[i] in repr && all[i].id == i && view.data[i] == all[i].Data()
    }

    constructor ()
      ensures Valid() && view == Init().tb
    {
      lanes, all, repr, next, view := map[], map[], {}, 0, Table(map[], map[]);
    }

    /** Adds an idle lane for a key that is not mapped. */
    method AddLane(key: SessionKey) returns (ln: Lane)
      requires Valid() && key !in lanes
      modifies this
      ensures Valid() && ln.id == old(next) && fresh(ln) && ln.id in all && all[ln.id] == ln
      ensures view == Added(old(view), key, ln.id)
      ensures ln.refs == 0
    {
      ln := new Lane(next, key);
      ghost var was := all;
      assert forall i | i in was :: old(Shown(i)) && was[i] != ln;
      lanes := lanes[key := ln];
      all, repr := all[next := ln], repr + {ln};
      view := Added(view, key, next);
      next := next + 1;
    }

    /** Writes the two fields of one lane. */
    method SetLane(ln: Lane, refs: int, stale: bool)
      requires Valid() && ln.id in all && all[ln.id] == ln
      modifies ln`refs, ln`stale, this`view
      ensures Valid() && ln.id in old(view).data
      ensures view == Written(old(view), ln.id, refs, stale)
    {
      ln.refs, ln.stale := refs, stale;
      view := Written(view, ln.id, refs, stale);
    }

    /** Removes one entry from the map. */
    method DeleteKey(key: SessionKey)
      requires Valid()
      modifies this`lanes, this`view
      ensures Valid() && lanes == old(lanes) - {key} && view == Table(old(view).lanes - {key}, old(view).data)
    {
      lanes := lanes - {key};
      view := Table(view.lanes - {key}, view.data);
    }

    /** The lane of a key, made if there is none; writing its fields is all that
        then remains of Enter. */
    method LaneOf(key: SessionKey) returns (ln: Lane)
      requires Valid()
      modifies this
      ensures Valid() && ln.id == LaneFor(old(view), key, old(next)) && ln.id in all && all[ln.id] == ln
      ensures ln in old(repr) || fresh(ln)
      ensures Written(view, ln.id, ln.refs + 1, false) == Enter(old(view), key, old(next))
    {
      EnterRewrites(view, key, next);
      if key in lanes {
        ln := lanes[key];
      } else {
        ln := AddLane(key);
      }
    }

    /** The locked section of Acquire and of TryAcquire. */
    method EnterSection(key: SessionKey) returns (ln: Lane)
      requires Valid()
      modifies this, repr
      ensures Valid() && view == Enter(old(view), key, old(next))
      ensures ln.id == LaneFor(old(view), key, old(next)) && ln.id in all && all[ln.id] == ln
    {
      ln := LaneOf(key);
      SetLane(ln, ln.refs + 1, false);
    }

    /** The locked section of Release. The lane is looked up by key; none is
        returned, and nothing changes, when the key is not mapped. */
    method ReleaseSection(key: SessionKey) returns (ln: Lane?)
      requires Valid()
      modifies this, repr
      ensures Valid() && (ln == null <==> key !in old(view).lanes)
      ensures key !in old(view).lanes ==> view == old(view)
      ensures key in old(view).lanes ==> ln.id == old(view).lanes[key] && view == Drop(old(view), key, ln.id)
    {
      if key !in lanes {
        return null;
      }
      ln := lanes[key];
      SetLane(ln, ln.refs - 1, ln.stale);
      if ln.refs == 0 && ln.stale {
        DeleteKey(key);
      }
    }

    /** The second locked section of TryAcquire, after a failed TryLock. */
    method UndoSection(key: SessionKey, ln: Lane)
      requires Valid() && ln.id in all && all[ln.id] == ln
      modifies this, repr
      ensures Valid() && view == Drop(old(view), key, ln.id)
    {
      SetLane(ln, ln.refs - 1, ln.stale);
      if ln.refs == 0 && ln.stale {
        DeleteKey(key);
      }
    }

    /** One iteration of the Cleanup loop; the map may shrink while it is
        ranged over. */
    method CleanupOne(key: SessionKey, activeKeys: set<SessionKey>)
      requires Valid() && key in lanes
      modifies this, repr
      ensures Valid() && repr == old(repr) && lanes.Keys >= old(lanes).Keys - {key}
      ensures view == SweepOne(old(view), activeKeys, key)
    {
      var ln := lanes[key];
      SetLane(ln, ln.refs, key !in activeKeys);
      if key !in activeKeys && ln.refs == 0 {
        DeleteKey(key);
      }
    }

    /** The Cleanup loop ranges over the map in an unspecified order. */
    method CleanupLoop(activeKeys: set<SessionKey>) returns (ghost order: seq<SessionKey>)
      requires Valid()
      modifies this, repr
      ensures Valid() && view == SweepAll(old(view), activeKeys, order)
      ensures Range(order) == old(view).lanes.Keys
    {
      order := [];
      var todo := lanes.Keys;
      ghost var was := view;
      while todo != {}
        invariant Valid() && repr == old(repr) && todo <= lanes.Keys
        invariant view == SweepAll(was, activeKeys, order)
        invariant Range(order) + todo == was.lanes.Keys
        decreases todo
      {
        var key :| key in todo;
        SweepAllSnoc(was, activeKeys, order, key);
        order, todo := order + [key], todo - {key};
        CleanupOne(key, activeKeys);
      }
    }

    method CleanupSection(activeKeys: set<SessionKey>)
      requires Valid() && LanesMapped(view)
      modifies this, repr
      ensures Valid() && view == Sweep(old(view), activeKeys)
    {
      ghost var order := CleanupLoop(activeKeys);
      SweepAllIsSweep(old(view), activeKeys, order);
    }
  }
}
