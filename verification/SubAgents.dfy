/** The sub-agent manager (internal/subagent/manager.go): slot accounting,
  agent status and lock order under any number of concurrent calls. */
module SubAgents {
  import opened Options

  type AgentID = string
  type Tid = nat

  datatype Status = Running | Completed | Failed | Timeout | Killed

  datatype SpawnRequest = SpawnRequest(parentID: string, sessionID: string, isSubAgent: bool)

  datatype SpawnError = RecursiveSpawn | CrossSession | MaxConcurrent | NoID

  datatype Agent = Agent(parentID: string, sessionID: string, status: Status)

  datatype Outcome = Success | DeadlineExceeded | OtherError

  predicate Clashes(a: Agent, req: SpawnRequest) {
    && req.sessionID != "" && req.parentID != ""
    && a.parentID == req.parentID && a.sessionID != "" && a.sessionID != req.sessionID
  }

  /** The checks of Spawn under the manager lock. */
  ghost function SpawnRefusal(agents: map<AgentID, Agent>, active: int, max: nat,
                              req: SpawnRequest): Option<SpawnError> {
    if exists id :: id in agents && Clashes(agents[id], req) then Some(CrossSession)
    else if active >= max then Some(MaxConcurrent)
    else None
  }

  /** What the end of runAgent writes; a killed agent stays killed. */
  function FinishStatus(st: Status, o: Outcome): Status {
    if st.Killed? then Killed
    else match o case Success => Completed case DeadlineExceeded => Timeout case OtherError => Failed
  }

  /** What Kill and Shutdown write. */
  function KillStatus(st: Status): Status { if st.Running? then Killed else st }

  // ---------------------------------------------------------------------
  // Interleavings
  // ---------------------------------------------------------------------

  /** The goroutine that owns one agent: the tail of Spawn, then runAgent.
      `Want` and `In` states wait for and hold the lock that they name. */
  datatype OwnerPC =
    | Building                         // calling the loop factory, no lock held
    | FailWantM | FailInM | FailInMA | FailInMDone
    | InLoop                           // inside loop.Run
    | EndWantA(o: Outcome) | EndInA(o: Outcome)
    | SlotWantM | SlotInM
    | Gone

  datatype TouchOp = Kill | Send | History

  datatype SweepOp = Shutdown | ListOf(parentID: string)

  datatype CallerPC =
    | SpawnWantM(req: SpawnRequest) | SpawnInM(req: SpawnRequest)
    | TouchWantM(op: TouchOp, id: AgentID) | TouchInM(op: TouchOp, id: AgentID)
    | TouchWantA(op: TouchOp, id: AgentID) | TouchInA(op: TouchOp, id: AgentID)
    | SweepWantM(over: SweepOp) | SweepInM(over: SweepOp, todo: set<AgentID>)
    | SweepInMA(over: SweepOp, todo: set<AgentID>, id: AgentID)

  datatype Holder = Free | ByOwner(owner: AgentID) | ByCaller(caller: Tid)

  datatype State = State(
    agents: map<AgentID, Agent>,
    active: int,
    mlock: Holder,
    alocks: map<AgentID, Holder>,
    owners: map<AgentID, OwnerPC>,
    callers: map<Tid, CallerPC>)

  datatype Action =
    | Call(t: Tid, pc: CallerPC)
    | LockM(t: Tid)
    | SpawnBody(t: Tid, newID: Option<AgentID>)
    | Lookup(t: Tid)
    | LockA(t: Tid)
    | TouchBody(t: Tid)
    | SweepNext(t: Tid, id: AgentID)
    | SweepBody(t: Tid)
    | SweepEnd(t: Tid)
    | Built(id: AgentID, ok: bool)
    | LoopEnded(id: AgentID, o: Outcome)
    | OwnerLockM(id: AgentID)
    | OwnerLockA(id: AgentID)
    | FailBody(id: AgentID)
    | EndBody(id: AgentID)
    | Release(id: AgentID)

  function Init(): State { State(map[], 0, Free, map[], map[], map[]) }

  predicate OwnerWantsM(pc: OwnerPC) { pc.FailWantM? || pc.SlotWantM? }
  predicate OwnerHoldsM(pc: OwnerPC) { pc.FailInM? || pc.FailInMA? || pc.FailInMDone? || pc.SlotInM? }
  predicate OwnerHoldsA(pc: OwnerPC) { pc.FailInMA? || pc.EndInA? }
  predicate CallerWantsM(pc: CallerPC) { pc.SpawnWantM? || pc.TouchWantM? || pc.SweepWantM? }
  predicate CallerHoldsM(pc: CallerPC) { pc.SpawnInM? || pc.TouchInM? || pc.SweepInM? || pc.SweepInMA? }
  predicate CallerHoldsA(pc: CallerPC, id: AgentID) { (pc.TouchInA? || pc.SweepInMA?) && pc.id == id }

  function SweepSet(agents: map<AgentID, Agent>, op: SweepOp): set<AgentID> {
    match op
    case Shutdown => agents.Keys
    case ListOf(p) => set id | id in agents && agents[id].parentID == p
  }

  ghost predicate Enabled(s: State, a: Action) {
    match a
    case Call(t, pc) => t !in s.callers && CallerWantsM(pc) && (pc.SpawnWantM? ==> !pc.req.isSubAgent)
    case LockM(t) => t in s.callers && CallerWantsM(s.callers[t]) && s.mlock.Free?
    case SpawnBody(t, newID) =>
      t in s.callers && s.callers[t].SpawnInM? && (newID.Some? ==> newID.value !in s.agents)
    case Lookup(t) => t in s.callers && s.callers[t].TouchInM?
    case LockA(t) => t in s.callers && s.callers[t].TouchWantA? && ALock(s, s.callers[t].id).Free?
    case TouchBody(t) => t in s.callers && s.callers[t].TouchInA? && s.callers[t].id in s.agents
    case SweepNext(t, id) =>
      t in s.callers && s.callers[t].SweepInM? && id in s.callers[t].todo && ALock(s, id).Free?
    case SweepBody(t) => t in s.callers && s.callers[t].SweepInMA? && s.callers[t].id in s.agents
    case SweepEnd(t) => t in s.callers && s.callers[t].SweepInM? && s.callers[t].todo == {}
    case Built(id, _) => id in s.owners && s.owners[id].Building?
    case LoopEnded(id, _) => id in s.owners && s.owners[id].InLoop?
    case OwnerLockM(id) => id in s.owners && OwnerWantsM(s.owners[id]) && s.mlock.Free?
    case OwnerLockA(id) =>
      id in s.owners && (s.owners[id].FailInM? || s.owners[id].EndWantA?) && ALock(s, id).Free?
    case FailBody(id) => id in s.owners && s.owners[id].FailInMA? && id in s.agents
    case EndBody(id) => id in s.owners && s.owners[id].EndInA? && id in s.agents
    case Release(id) => id in s.owners && (s.owners[id].FailInMDone? || s.owners[id].SlotInM?)
  }

  function ALock(s: State, id: AgentID): Holder { if id in s.alocks then s.alocks[id] else Free }

  function SetStatus(agents: map<AgentID, Agent>, id: AgentID, st: Status): map<AgentID, Agent>
    requires id in agents
  {
    agents[id := agents[id].(status := st)]
  }

  ghost function Apply(max: nat, s: State, a: Action): State
    requires Enabled(s, a)
  {
    match a
    case Call(t, pc) => s.(callers := s.callers[t := pc])
    case LockM(t) =>
      var pc := match s.callers[t]
        case SpawnWantM(req) => SpawnInM(req)
        case TouchWantM(op, id) => TouchInM(op, id)
        case SweepWantM(op) => SweepInM(op, SweepSet(s.agents, op));
      s.(callers := s.callers[t := pc], mlock := ByCaller(t))
    case SpawnBody(t, newID) =>
      var req := s.callers[t].req;
      if SpawnRefusal(s.agents, s.active, max, req) == None && newID.Some? then
        s.(agents := s.agents[newID.value := Agent(req.parentID, req.sessionID, Running)],
           owners := s.owners[newID.value := Building],
           active := s.active + 1, callers := s.callers - {t}, mlock := Free)
      else
        s.(callers := s.callers - {t}, mlock := Free)
    case Lookup(t) =>
      var pc := s.callers[t];
      s.(callers := if pc.id in s.agents then s.callers[t := TouchWantA(pc.op, pc.id)] else s.callers - {t},
         mlock := Free)
    case LockA(t) =>
      var pc := s.callers[t];
      s.(callers := s.callers[t := TouchInA(pc.op, pc.id)], alocks := s.alocks[pc.id := ByCaller(t)])
    case TouchBody(t) =>
      var pc := s.callers[t];
      var st := s.agents[pc.id].status;
      s.(agents := SetStatus(s.agents, pc.id, if pc.op.Kill? then KillStatus(st) else st),
         callers := s.callers - {t}, alocks := s.alocks[pc.id := Free])
    case SweepNext(t, id) =>
      var pc := s.callers[t];
      s.(callers := s.callers[t := SweepInMA(pc.over, pc.todo - {id}, id)], alocks := s.alocks[id := ByCaller(t)])
    case SweepBody(t) =>
      var pc := s.callers[t];
      var st := s.agents[pc.id].status;
      s.(agents := SetStatus(s.agents, pc.id, if pc.over.Shutdown? then KillStatus(st) else st),
         callers := s.callers[t := SweepInM(pc.over, pc.todo)], alocks := s.alocks[pc.id := Free])
    case SweepEnd(t) => s.(callers := s.callers - {t}, mlock := Free)
    case Built(id, ok) => s.(owners := s.owners[id := if ok then InLoop else FailWantM])
    case LoopEnded(id, o) => s.(owners := s.owners[id := EndWantA(o)])
    case OwnerLockM(id) =>
      s.(owners := s.owners[id := if s.owners[id].FailWantM? then FailInM else SlotInM], mlock := ByOwner(id))
    case OwnerLockA(id) =>
      var pc := s.owners[id];
      s.(owners := s.owners[id := if pc.FailInM? then FailInMA else EndInA(pc.o)],
         alocks := s.alocks[id := ByOwner(id)])
    case FailBody(id) =>
      s.(agents := SetStatus(s.agents, id, Failed), owners := s.owners[id := FailInMDone],
         alocks := s.alocks[id := Free])
    case EndBody(id) =>
      s.(agents := SetStatus(s.agents, id, FinishStatus(s.agents[id].status, s.owners[id].o)),
         owners := s.owners[id := SlotWantM], alocks := s.alocks[id := Free])
    case Release(id) => s.(owners := s.owners[id := Gone], active := s.active - 1, mlock := Free)
  }

  // ----- the invariant, by parts -----

  /** The concurrency slots that have not been given back. */
  ghost function Slots(owners: map<AgentID, OwnerPC>): set<AgentID> {
    set id | id in owners && !owners[id].Gone?
  }

  ghost function RunningAgents(agents: map<AgentID, Agent>): set<AgentID> {
    set id | id in agents && agents[id].status.Running?
  }

  /** The owner has already written the final status. */
  predicate Written(pc: OwnerPC) { pc.FailInMDone? || pc.SlotWantM? || pc.SlotInM? || pc.Gone? }

  /** The owner can still take the factory-failure path. */
  predicate MayFail(pc: OwnerPC) { pc.Building? || pc.FailWantM? || pc.FailInM? || pc.FailInMA? }

  ghost predicate OwnersExact(agents: map<AgentID, Agent>, owners: map<AgentID, OwnerPC>) {
    && owners.Keys == agents.Keys
    && (forall id | id in owners && Written(owners[id]) :: !agents[id].status.Running?)
  }

  ghost predicate SlotsExact(active: int, max: nat, owners: map<AgentID, OwnerPC>) {
    active == |Slots(owners)| <= max
  }

  ghost predicate OneSession(agents: map<AgentID, Agent>) {
    forall i, j | i in agents && j in agents && agents[i].parentID == agents[j].parentID != ""
                  && agents[i].sessionID != "" && agents[j].sessionID != "" ::
      agents[i].sessionID == agents[j].sessionID
  }

  ghost predicate IdsKnown(agents: map<AgentID, Agent>, callers: map<Tid, CallerPC>) {
    && (forall t | t in callers && (callers[t].TouchWantA? || callers[t].TouchInA? || callers[t].SweepInMA?) ::
          callers[t].id in agents)
    && (forall t | t in callers && (callers[t].SweepInM? || callers[t].SweepInMA?) :: callers[t].todo <= agents.Keys)
  }

  ghost predicate MLockOwners(mlock: Holder, owners: map<AgentID, OwnerPC>) {
    && (forall id | id in owners && OwnerHoldsM(owners[id]) :: mlock == ByOwner(id))
    && (mlock.ByOwner? ==> mlock.owner in owners && OwnerHoldsM(owners[mlock.owner]))
  }

  ghost predicate MLockCallers(mlock: Holder, callers: map<Tid, CallerPC>) {
    && (forall t | t in callers && CallerHoldsM(callers[t]) :: mlock == ByCaller(t))
    && (mlock.ByCaller? ==> mlock.caller in callers && CallerHoldsM(callers[mlock.caller]))
  }

  /** Owners lock only their own agent. */
  ghost predicate OwnersLocks(alocks: map<AgentID, Holder>, owners: map<AgentID, OwnerPC>) {
    && (forall id | id in owners && OwnerHoldsA(owners[id]) :: id in alocks && alocks[id] == ByOwner(id))
    && (forall id, o {:trigger alocks[id], ByOwner(o)} | id in alocks && alocks[id] == ByOwner(o) ::
          o == id && id in owners && OwnerHoldsA(owners[id]))
  }

  ghost predicate CallersLocks(alocks: map<AgentID, Holder>, callers: map<Tid, CallerPC>) {
    && (forall t | t in callers && (callers[t].TouchInA? || callers[t].SweepInMA?) ::
          callers[t].id in alocks && alocks[callers[t].id] == ByCaller(t))
    && (forall id, t {:trigger alocks[id], ByCaller(t)} | id in alocks && alocks[id] == ByCaller(t) ::
          t in callers && CallerHoldsA(callers[t], id))
  }

  ghost predicate Inv(max: nat, s: State) {
    && OwnersExact(s.agents, s.owners)
    && SlotsExact(s.active, max, s.owners)
    && OneSession(s.agents)
    && IdsKnown(s.agents, s.callers)
    && MLockOwners(s.mlock, s.owners)
    && MLockCallers(s.mlock, s.callers)
    && OwnersLocks(s.alocks, s.owners)
    && CallersLocks(s.alocks, s.callers)
  }

  // ----- each step keeps the invariant -----

  lemma OwnerMoves(agents: map<AgentID, Agent>, owners: map<AgentID, OwnerPC>, id: AgentID, pc: OwnerPC)
    requires OwnersExact(agents, owners) && id in owners && (Written(pc) ==> !agents[id].status.Running?)
    ensures OwnersExact(agents, owners[id := pc])
  {
  }

  lemma StatusMoves(agents: map<AgentID, Agent>, owners: map<AgentID, OwnerPC>, id: AgentID, st: Status)
    requires OwnersExact(agents, owners) && id in agents && (st.Running? ==> agents[id].status.Running?)
    ensures OwnersExact(SetStatus(agents, id, st), owners)
  {
  }

  lemma StepKeepsOwners(max: nat, s: State, a: Action)
    requires Enabled(s, a) && OwnersExact(s.agents, s.owners)
    ensures var s' := Apply(max, s, a); OwnersExact(s'.agents, s'.owners)
  {
    var s' := Apply(max, s, a);
    match a
    case SpawnBody(_, _) =>
    case TouchBody(t) => StatusMoves(s.agents, s.owners, s.callers[t].id, s'.agents[s.callers[t].id].status);
    case SweepBody(t) => StatusMoves(s.agents, s.owners, s.callers[t].id, s'.agents[s.callers[t].id].status);
    case Built(id, _) => OwnerMoves(s.agents, s.owners, id, s'.owners[id]);
    case LoopEnded(id, _) => OwnerMoves(s.agents, s.owners, id, s'.owners[id]);
    case OwnerLockM(id) => OwnerMoves(s.agents, s.owners, id, s'.owners[id]);
    case OwnerLockA(id) => OwnerMoves(s.agents, s.owners, id, s'.owners[id]);
    case FailBody(id) =>
      StatusMoves(s.agents, s.owners, id, Failed);
      OwnerMoves(s'.agents, s.owners, id, FailInMDone);
    case EndBody(id) =>
      StatusMoves(s.agents, s.owners, id, s'.agents[id].status);
      OwnerMoves(s'.agents, s.owners, id, SlotWantM);
    case Release(id) => OwnerMoves(s.agents, s.owners, id, Gone);
    case _ => assert s'.agents == s.agents && s'.owners == s.owners;
  }

  lemma SlotTaken(owners: map<AgentID, OwnerPC>, id: AgentID)
    requires id !in owners
    ensures |Slots(owners[id := Building])| == |Slots(owners)| + 1
  {
    assert Slots(owners[id := Building]) == Slots(owners) + {id};
  }

  lemma SlotGivenBack(owners: map<AgentID, OwnerPC>, id: AgentID)
    requires id in owners && !owners[id].Gone?
    ensures |Slots(owners[id := Gone])| == |Slots(owners)| - 1
  {
    assert Slots(owners) == Slots(owners[id := Gone]) + {id};
  }

  lemma SlotKept(owners: map<AgentID, OwnerPC>, id: AgentID, pc: OwnerPC)
    requires id in owners && !owners[id].Gone? && !pc.Gone?
    ensures Slots(owners[id := pc]) == Slots(owners)
  {
  }

  lemma StepKeepsSlots(max: nat, s: State, a: Action)
    requires Enabled(s, a) && OwnersExact(s.agents, s.owners) && SlotsExact(s.active, max, s.owners)
    ensures var s' := Apply(max, s, a); SlotsExact(s'.active, max, s'.owners)
  {
    match a
    case SpawnBody(t, newID) =>
      if newID.Some? {
        SlotTaken(s.owners, newID.value);
      }
    case Release(id) => SlotGivenBack(s.owners, id);
    case Built(id, ok) => SlotKept(s.owners, id, if ok then InLoop else FailWantM);
    case LoopEnded(id, o) => SlotKept(s.owners, id, EndWantA(o));
    case OwnerLockM(id) => SlotKept(s.owners, id, if s.owners[id].FailWantM? then FailInM else SlotInM);
    case OwnerLockA(id) =>
      SlotKept(s.owners, id, if s.owners[id].FailInM? then FailInMA else EndInA(s.owners[id].o));
    case FailBody(id) => SlotKept(s.owners, id, FailInMDone);
    case EndBody(id) => SlotKept(s.owners, id, SlotWantM);
    case _ =>
  }

  lemma StatusKeepsSession(agents: map<AgentID, Agent>, id: AgentID, st: Status)
    requires OneSession(agents) && id in agents
    ensures OneSession(SetStatus(agents, id, st))
  {
  }

  lemma SpawnKeepsSession(agents: map<AgentID, Agent>, active: int, max: nat, req: SpawnRequest, id: AgentID)
    requires OneSession(agents) && id !in agents && SpawnRefusal(agents, active, max, req) == None
    ensures OneSession(agents[id := Agent(req.parentID, req.sessionID, Running)])
  {
    assert forall i | i in agents :: !Clashes(agents[i], req);
  }

  lemma StepKeepsSession(max: nat, s: State, a: Action)
    requires Enabled(s, a) && OneSession(s.agents)
    ensures OneSession(Apply(max, s, a).agents)
  {
    var agents' := Apply(max, s, a).agents;
    match a
    case SpawnBody(t, newID) =>
      if agents' != s.agents {
        SpawnKeepsSession(s.agents, s.active, max, s.callers[t].req, newID.value);
      }
    case TouchBody(t) => StatusKeepsSession(s.agents, s.callers[t].id, agents'[s.callers[t].id].status);
    case SweepBody(t) => StatusKeepsSession(s.agents, s.callers[t].id, agents'[s.callers[t].id].status);
    case FailBody(id) => StatusKeepsSession(s.agents, id, Failed);
    case EndBody(id) => StatusKeepsSession(s.agents, id, agents'[id].status);
    case _ => assert agents' == s.agents;
  }

  lemma StepKeepsIds(max: nat, s: State, a: Action)
    requires Enabled(s, a) && IdsKnown(s.agents, s.callers)
    ensures var s' := Apply(max, s, a); IdsKnown(s'.agents, s'.callers)
  {
  }

  lemma OwnerKeepsM(mlock: Holder, owners: map<AgentID, OwnerPC>, id: AgentID, pc: OwnerPC)
    requires MLockOwners(mlock, owners)
    requires if id in owners then OwnerHoldsM(pc) == OwnerHoldsM(owners[id]) else !OwnerHoldsM(pc)
    ensures MLockOwners(mlock, owners[id := pc])
  {
  }

  lemma OwnerTakesM(owners: map<AgentID, OwnerPC>, id: AgentID, pc: OwnerPC)
    requires MLockOwners(Free, owners) && id in owners && OwnerHoldsM(pc)
    ensures MLockOwners(ByOwner(id), owners[id := pc])
  {
  }

  lemma StepKeepsMLockOwners(max: nat, s: State, a: Action)
    requires Enabled(s, a) && OwnersExact(s.agents, s.owners)
    requires MLockOwners(s.mlock, s.owners) && MLockCallers(s.mlock, s.callers)
    ensures var s' := Apply(max, s, a); MLockOwners(s'.mlock, s'.owners)
  {
    var s' := Apply(max, s, a);
    match a
    case LockM(t) =>
    case SpawnBody(_, newID) =>
      if s'.owners != s.owners {
        OwnerKeepsM(Free, s.owners, newID.value, Building);
      }
    case Lookup(_) =>
    case SweepEnd(_) =>
    case Built(id, _) => OwnerKeepsM(s.mlock, s.owners, id, s'.owners[id]);
    case LoopEnded(id, _) => OwnerKeepsM(s.mlock, s.owners, id, s'.owners[id]);
    case OwnerLockA(id) => OwnerKeepsM(s.mlock, s.owners, id, s'.owners[id]);
    case FailBody(id) => OwnerKeepsM(s.mlock, s.owners, id, FailInMDone);
    case EndBody(id) => OwnerKeepsM(s.mlock, s.owners, id, SlotWantM);
    case OwnerLockM(id) => OwnerTakesM(s.owners, id, s'.owners[id]);
    case Release(id) =>
    case _ => assert s'.mlock == s.mlock && s'.owners == s.owners;
  }

  lemma StepKeepsMLockCallers(max: nat, s: State, a: Action)
    requires Enabled(s, a)
    requires MLockOwners(s.mlock, s.owners) && MLockCallers(s.mlock, s.callers)
    ensures var s' := Apply(max, s, a); MLockCallers(s'.mlock, s'.callers)
  {
  }

  lemma OwnerKeepsHold(alocks: map<AgentID, Holder>, owners: map<AgentID, OwnerPC>, id: AgentID, pc: OwnerPC)
    requires OwnersLocks(alocks, owners)
    requires if id in owners then OwnerHoldsA(pc) == OwnerHoldsA(owners[id]) else !OwnerHoldsA(pc)
    ensures OwnersLocks(alocks, owners[id := pc])
  {
  }

  lemma CallerTakesOrFrees(alocks: map<AgentID, Holder>, owners: map<AgentID, OwnerPC>, id: AgentID, h: Holder)
    requires OwnersLocks(alocks, owners) && !h.ByOwner? && (id in alocks ==> !alocks[id].ByOwner?)
    ensures OwnersLocks(alocks[id := h], owners)
  {
  }

  lemma StepKeepsOwnersLocks(max: nat, s: State, a: Action)
    requires Enabled(s, a) && OwnersExact(s.agents, s.owners)
    requires OwnersLocks(s.alocks, s.owners) && CallersLocks(s.alocks, s.callers)
    ensures var s' := Apply(max, s, a); OwnersLocks(s'.alocks, s'.owners)
  {
    var s' := Apply(max, s, a);
    match a
    case SpawnBody(_, newID) =>
      if s'.owners != s.owners {
        OwnerKeepsHold(s.alocks, s.owners, newID.value, Building);
      }
    case LockA(t) => CallerTakesOrFrees(s.alocks, s.owners, s.callers[t].id, ByCaller(t));
    case TouchBody(t) => CallerTakesOrFrees(s.alocks, s.owners, s.callers[t].id, Free);
    case SweepNext(t, id) => CallerTakesOrFrees(s.alocks, s.owners, id, ByCaller(t));
    case SweepBody(t) => CallerTakesOrFrees(s.alocks, s.owners, s.callers[t].id, Free);
    case Built(id, _) => OwnerKeepsHold(s.alocks, s.owners, id, s'.owners[id]);
    case LoopEnded(id, _) => OwnerKeepsHold(s.alocks, s.owners, id, s'.owners[id]);
    case OwnerLockM(id) => OwnerKeepsHold(s.alocks, s.owners, id, s'.owners[id]);
    case Release(id) => OwnerKeepsHold(s.alocks, s.owners, id, Gone);
    case OwnerLockA(id) =>
    case FailBody(id) =>
    case EndBody(id) =>
    case _ => assert s'.alocks == s.alocks && s'.owners == s.owners;
  }

  predicate CallerInA(pc: CallerPC) { pc.TouchInA? || pc.SweepInMA? }

  /** A caller that holds no agent's lock moves or leaves. */
  lemma CallerKeepsHold(alocks: map<AgentID, Holder>, callers: map<Tid, CallerPC>, t: Tid, pc: CallerPC)
    requires CallersLocks(alocks, callers) && (t in callers ==> !CallerInA(callers[t])) && !CallerInA(pc)
    ensures CallersLocks(alocks, callers[t := pc]) && CallersLocks(alocks, callers - {t})
  {
  }

  lemma OwnerTakesOrFrees(alocks: map<AgentID, Holder>, callers: map<Tid, CallerPC>, id: AgentID, h: Holder)
    requires CallersLocks(alocks, callers) && !h.ByCaller? && (id in alocks ==> !alocks[id].ByCaller?)
    ensures CallersLocks(alocks[id := h], callers)
  {
  }

  lemma StepKeepsCallersLocks(max: nat, s: State, a: Action)
    requires Enabled(s, a)
    requires OwnersLocks(s.alocks, s.owners) && CallersLocks(s.alocks, s.callers)
    ensures var s' := Apply(max, s, a); CallersLocks(s'.alocks, s'.callers)
  {
    var s' := Apply(max, s, a);
    match a
    case Call(t, pc) => CallerKeepsHold(s.alocks, s.callers, t, pc);
    case LockM(t) => CallerKeepsHold(s.alocks, s.callers, t, s'.callers[t]);
    case SpawnBody(t, _) => CallerKeepsHold(s.alocks, s.callers, t, s.callers[t]);
    case Lookup(t) =>
      CallerKeepsHold(s.alocks, s.callers, t, TouchWantA(s.callers[t].op, s.callers[t].id));
    case SweepEnd(t) => CallerKeepsHold(s.alocks, s.callers, t, s.callers[t]);
    case LockA(t) =>
    case SweepNext(t, _) =>
    case TouchBody(t) =>
    case SweepBody(t) =>
    case OwnerLockA(id) => OwnerTakesOrFrees(s.alocks, s.callers, id, ByOwner(id));
    case FailBody(id) => OwnerTakesOrFrees(s.alocks, s.callers, id, Free);
    case EndBody(id) => OwnerTakesOrFrees(s.alocks, s.callers, id, Free);
    case _ => assert s'.alocks == s.alocks && s'.callers == s.callers;
  }

  lemma StepKeepsInv(max: nat, s: State, a: Action)
    requires Enabled(s, a) && Inv(max, s)
    ensures Inv(max, Apply(max, s, a))
  {
    StepKeepsOwners(max, s, a);
    StepKeepsSlots(max, s, a);
    StepKeepsSession(max, s, a);
    StepKeepsIds(max, s, a);
    StepKeepsMLockOwners(max, s, a);
    StepKeepsMLockCallers(max, s, a);
    StepKeepsOwnersLocks(max, s, a);
    StepKeepsCallersLocks(max, s, a);
  }

  // ----- whole runs -----

  ghost predicate StepAt(max: nat, states: seq<State>, acts: seq<Action>, i: nat)
    requires i < |acts| && i + 1 < |states|
  {
    Enabled(states[i], acts[i]) && states[i + 1] == Apply(max, states[i], acts[i])
  }

  ghost predicate IsRun(max: nat, states: seq<State>, acts: seq<Action>) {
    && |states| == |acts| + 1 && states[0] == Init()
    && forall i | 0 <= i < |acts| :: StepAt(max, states, acts, i)
  }

  lemma {:induction false} RunKeepsInv(max: nat, states: seq<State>, acts: seq<Action>, n: nat)
    requires IsRun(max, states, acts) && n < |states|
    ensures Inv(max, states[n])
  {
    if n == 0 {
      assert Slots(map[]) == {};
    } else {
      RunKeepsInv(max, states, acts, n - 1);
      assert StepAt(max, states, acts, n - 1);
      StepKeepsInv(max, states[n - 1], acts[n - 1]);
    }
  }

  lemma SubsetCard(x: set<AgentID>, y: set<AgentID>)
    requires x <= y
    ensures |x| <= |y|
  {
    assert y == x + (y - x);
  }

  /** In every interleaving the Running agents are at most `active`, which
      counts exactly the slots not given back and never exceeds MaxConcurrent. */
  lemma SlotAccounting(max: nat, states: seq<State>, acts: seq<Action>, n: nat)
    requires IsRun(max, states, acts) && n < |states|
    ensures |RunningAgents(states[n].agents)| <= states[n].active == |Slots(states[n].owners)| <= max
  {
    RunKeepsInv(max, states, acts, n);
    SubsetCard(RunningAgents(states[n].agents), Slots(states[n].owners));
  }

  /** All agents of one non-empty parent with non-empty session IDs belong to
      one session. */
  lemma SessionIsolation(max: nat, states: seq<State>, acts: seq<Action>, n: nat, i: AgentID, j: AgentID)
    requires IsRun(max, states, acts) && n < |states| && i in states[n].agents && j in states[n].agents
    requires states[n].agents[i].parentID == states[n].agents[j].parentID != ""
    requires states[n].agents[i].sessionID != "" && states[n].agents[j].sessionID != ""
    ensures states[n].agents[i].sessionID == states[n].agents[j].sessionID
  {
    RunKeepsInv(max, states, acts, n);
  }

  /** A finished agent whose owner is still inside runAgent was killed. */
  ghost predicate FinishedInLoopIsKilled(agents: map<AgentID, Agent>, owners: map<AgentID, OwnerPC>) {
    forall id | id in agents && id in owners && !agents[id].status.Running? && !Written(owners[id]) ::
      agents[id].status.Killed?
  }

  lemma OwnerKeepsKilledOnly(agents: map<AgentID, Agent>, owners: map<AgentID, OwnerPC>, id: AgentID, pc: OwnerPC)
    requires FinishedInLoopIsKilled(agents, owners) && id in owners && (Written(owners[id]) ==> Written(pc))
    ensures FinishedInLoopIsKilled(agents, owners[id := pc])
  {
  }

  lemma StatusKeepsKilledOnly(agents: map<AgentID, Agent>, owners: map<AgentID, OwnerPC>, id: AgentID, st: Status)
    requires FinishedInLoopIsKilled(agents, owners) && id in agents
    requires st == agents[id].status || st.Killed? || (id in owners && Written(owners[id]))
    ensures FinishedInLoopIsKilled(SetStatus(agents, id, st), owners)
  {
  }

  lemma StepKeepsKilledOnly(max: nat, s: State, a: Action)
    requires Enabled(s, a) && OwnersExact(s.agents, s.owners) && FinishedInLoopIsKilled(s.agents, s.owners)
    ensures FinishedInLoopIsKilled(Apply(max, s, a).agents, Apply(max, s, a).owners)
  {
    var s' := Apply(max, s, a);
    match a
    case SpawnBody(_, _) =>
    case TouchBody(t) => StatusKeepsKilledOnly(s.agents, s.owners, s.callers[t].id, s'.agents[s.callers[t].id].status);
    case SweepBody(t) => StatusKeepsKilledOnly(s.agents, s.owners, s.callers[t].id, s'.agents[s.callers[t].id].status);
    case FailBody(id) =>
      OwnerKeepsKilledOnly(s.agents, s.owners, id, FailInMDone);
      StatusKeepsKilledOnly(s.agents, s'.owners, id, Failed);
    case EndBody(id) =>
      OwnerKeepsKilledOnly(s.agents, s.owners, id, SlotWantM);
      StatusKeepsKilledOnly(s.agents, s'.owners, id, s'.agents[id].status);
    case Built(id, _) => OwnerKeepsKilledOnly(s.agents, s.owners, id, s'.owners[id]);
    case LoopEnded(id, _) => OwnerKeepsKilledOnly(s.agents, s.owners, id, s'.owners[id]);
    case OwnerLockM(id) => OwnerKeepsKilledOnly(s.agents, s.owners, id, s'.owners[id]);
    case OwnerLockA(id) => OwnerKeepsKilledOnly(s.agents, s.owners, id, s'.owners[id]);
    case Release(id) => OwnerKeepsKilledOnly(s.agents, s.owners, id, Gone);
    case _ => assert s'.agents == s.agents && s'.owners == s.owners;
  }

  lemma {:induction false} RunKeepsKilledOnly(max: nat, states: seq<State>, acts: seq<Action>, n: nat)
    requires IsRun(max, states, acts) && n < |states|
    ensures FinishedInLoopIsKilled(states[n].agents, states[n].owners)
  {
    if n > 0 {
      RunKeepsInv(max, states, acts, n - 1);
      RunKeepsKilledOnly(max, states, acts, n - 1);
      assert StepAt(max, states, acts, n - 1);
      StepKeepsKilledOnly(max, states[n - 1], acts[n - 1]);
    }
  }

  /** The factory-failure path of Spawn writes agent id between steps n and m. */
  ghost predicate FailsBetween(acts: seq<Action>, n: nat, m: nat, id: AgentID) {
    exists k | n <= k < m && k < |acts| :: acts[k] == FailBody(id)
  }

  /** What one step does to a finished agent: the factory-failure path turns it
      from Killed to Failed, and nothing else changes it. */
  lemma StepOnFinished(max: nat, s: State, a: Action, id: AgentID)
    requires Enabled(s, a) && OwnersExact(s.agents, s.owners) && FinishedInLoopIsKilled(s.agents, s.owners)
    requires id in s.agents && !s.agents[id].status.Running?
    ensures id in Apply(max, s, a).agents
    ensures Apply(max, s, a).agents[id].status == if a == FailBody(id) then Failed else s.agents[id].status
    ensures a == FailBody(id) ==> s.agents[id].status == Killed
  {
    match a
    case FailBody(_) =>
    case EndBody(_) =>
    case TouchBody(_) =>
    case SweepBody(_) =>
    case SpawnBody(_, _) =>
    case _ =>
  }

  lemma NextOnFinished(max: nat, states: seq<State>, acts: seq<Action>, k: nat, id: AgentID)
    requires IsRun(max, states, acts) && k < |acts|
    requires id in states[k].agents && !states[k].agents[id].status.Running?
    ensures id in states[k + 1].agents
    ensures states[k + 1].agents[id].status == if acts[k] == FailBody(id) then Failed else states[k].agents[id].status
    ensures acts[k] == FailBody(id) ==> states[k].agents[id].status == Killed
  {
    RunKeepsInv(max, states, acts, k);
    RunKeepsKilledOnly(max, states, acts, k);
    assert StepAt(max, states, acts, k);
    StepOnFinished(max, states[k], acts[k], id);
  }

  /** The status of a finished agent at any later time: Failed if the
      factory-failure path of Spawn has written it since, otherwise unchanged. So a
      finished agent never runs again, and runAgent never overwrites Killed. */
  lemma {:induction false} FinishedIsFinal(max: nat, states: seq<State>, acts: seq<Action>, n: nat, m: nat, id: AgentID)
    requires IsRun(max, states, acts) && n <= m < |states|
    requires id in states[n].agents && !states[n].agents[id].status.Running?
    ensures id in states[m].agents
    ensures states[m].agents[id].status == if FailsBetween(acts, n, m, id) then Failed else states[n].agents[id].status
    decreases m
  {
    if n < m {
      FinishedIsFinal(max, states, acts, n, m - 1, id);
      NextOnFinished(max, states, acts, m - 1, id);
    }
  }

  /** The status of a finished agent changes if and only if the factory-failure
      path runs, and then it was Killed and becomes Failed. */
  lemma ChangesExactlyOnFailure(max: nat, states: seq<State>, acts: seq<Action>, n: nat, m: nat, id: AgentID)
    requires IsRun(max, states, acts) && n <= m < |states|
    requires id in states[n].agents && !states[n].agents[id].status.Running?
    ensures id in states[m].agents
    ensures states[m].agents[id].status != states[n].agents[id].status <==> FailsBetween(acts, n, m, id)
    ensures FailsBetween(acts, n, m, id) ==>
              states[n].agents[id].status == Killed && states[m].agents[id].status == Failed
  {
    FinishedIsFinal(max, states, acts, n, m, id);
    if k :| n <= k < m && k < |acts| && acts[k] == FailBody(id) {
      FinishedIsFinal(max, states, acts, n, k, id);
      NextOnFinished(max, states, acts, k, id);
    }
  }

  lemma {:induction false} NeverFailsOnceBuilt(max: nat, states: seq<State>, acts: seq<Action>, n: nat, m: nat,
                                               id: AgentID)
    requires IsRun(max, states, acts) && n <= m < |states|
    requires id in states[n].agents && id in states[n].owners && !MayFail(states[n].owners[id])
    ensures id in states[m].owners && !MayFail(states[m].owners[id]) && !FailsBetween(acts, n, m, id)
    decreases m
  {
    if n < m {
      NeverFailsOnceBuilt(max, states, acts, n, m - 1, id);
      RunKeepsInv(max, states, acts, m - 1);
      assert StepAt(max, states, acts, m - 1);
      StaysBuilt(max, states[m - 1], acts[m - 1], id);
    }
  }

  /** Once the loop of an agent is built, its final status is final. */
  lemma BuiltIsFinal(max: nat, states: seq<State>, acts: seq<Action>, n: nat, m: nat, id: AgentID)
    requires IsRun(max, states, acts) && n <= m < |states|
    requires id in states[n].agents && !states[n].agents[id].status.Running?
    requires id in states[n].owners && !MayFail(states[n].owners[id])
    ensures id in states[m].agents && states[m].agents[id].status == states[n].agents[id].status
  {
    FinishedIsFinal(max, states, acts, n, m, id);
    NeverFailsOnceBuilt(max, states, acts, n, m, id);
  }

  lemma StaysBuilt(max: nat, s: State, a: Action, id: AgentID)
    requires Enabled(s, a) && OwnersExact(s.agents, s.owners) && id in s.owners && !MayFail(s.owners[id])
    ensures a != FailBody(id) && id in Apply(max, s, a).owners && !MayFail(Apply(max, s, a).owners[id])
  {
    match a
    case FailBody(_) =>
    case EndBody(_) =>
    case SpawnBody(_, _) =>
    case Built(_, _) =>
    case _ =>
  }

  // ----- no deadlock: locks are taken manager first, then agent -----

  // A party that holds or wants locks is named as the holder of a lock is.

  ghost predicate WantsM(s: State, p: Holder) {
    match p
    case Free => false
    case ByOwner(id) => id in s.owners && OwnerWantsM(s.owners[id])
    case ByCaller(t) => t in s.callers && CallerWantsM(s.callers[t])
  }

  /** A sweep may come to any of the agents that it still has to visit. */
  ghost predicate WantsA(s: State, p: Holder, id: AgentID) {
    match p
    case Free => false
    case ByOwner(o) => o == id && id in s.owners && (s.owners[id].FailInM? || s.owners[id].EndWantA?)
    case ByCaller(t) =>
      && t in s.callers
      && ((s.callers[t].TouchWantA? && s.callers[t].id == id)
          || (s.callers[t].SweepInM? && id in s.callers[t].todo))
  }

  ghost predicate WaitsForM(s: State, p: Holder, q: Holder) { !q.Free? && WantsM(s, p) && s.mlock == q }

  ghost predicate WaitsForA(s: State, p: Holder, q: Holder) {
    !q.Free? && exists id :: WantsA(s, p, id) && ALock(s, id) == q
  }

  /** p waits for a lock that q holds. */
  ghost predicate WaitsFor(s: State, p: Holder, q: Holder) { WaitsForM(s, p, q) || WaitsForA(s, p, q) }

  lemma HoldsAgent(max: nat, s: State, id: AgentID)
    requires Inv(max, s) && !ALock(s, id).Free?
    ensures match ALock(s, id)
            case ByOwner(o) => o == id && id in s.owners && OwnerHoldsA(s.owners[id])
            case ByCaller(t) => t in s.callers && CallerHoldsA(s.callers[t], id)
            case Free => false
  {
    match ALock(s, id)
    case ByOwner(o) => assert s.alocks[id] == ByOwner(o);
    case ByCaller(t) => assert s.alocks[id] == ByCaller(t);
  }

  /** Whoever holds an agent's lock waits for no lock. */
  lemma LockOrder(max: nat, states: seq<State>, acts: seq<Action>, n: nat, id: AgentID, q: Holder)
    requires IsRun(max, states, acts) && n < |states|
    ensures !WaitsFor(states[n], ALock(states[n], id), q)
  {
    RunKeepsInv(max, states, acts, n);
    if !ALock(states[n], id).Free? {
      HoldsAgent(max, states[n], id);
    }
  }

  /** Whoever holds the manager lock does not wait for it. */
  lemma ManagerHolderWantsAgents(max: nat, s: State)
    requires Inv(max, s)
    ensures !WantsM(s, s.mlock)
  {
  }

  /** 0 for who holds an agent's lock, 1 for who holds the manager lock only, 2 for
      everyone else. */
  ghost function Rank(s: State, p: Holder): nat {
    if exists id :: ALock(s, id) == p && !p.Free? then 0 else if s.mlock == p then 1 else 2
  }

  /** Waiting goes down in rank. */
  lemma WaitingDescends(max: nat, states: seq<State>, acts: seq<Action>, n: nat, p: Holder, q: Holder)
    requires IsRun(max, states, acts) && n < |states| && WaitsFor(states[n], p, q)
    ensures Rank(states[n], q) < Rank(states[n], p)
  {
    RunKeepsInv(max, states, acts, n);
    var s := states[n];
    if id :| ALock(s, id) == p && !p.Free? {
      LockOrder(max, states, acts, n, id, q);
      assert false;
    }
    if WaitsForM(s, p, q) {
      ManagerHolderWantsAgents(max, s);
    }
  }

  /** The wait-for relation has no cycle, in any reachable state: a chain of parties
      each waiting for the next has at most three of them, and never returns. */
  lemma {:induction false} NoWaitCycle(max: nat, states: seq<State>, acts: seq<Action>, n: nat, chain: seq<Holder>)
    requires IsRun(max, states, acts) && n < |states| && chain != []
    requires forall i | 0 <= i < |chain| - 1 :: WaitsFor(states[n], chain[i], chain[i + 1])
    ensures |chain| <= 3 && forall i, j | 0 <= i < j < |chain| :: chain[i] != chain[j]
  {
    forall i, j | 0 <= i < j < |chain| ensures Rank(states[n], chain[j]) + (j - i) <= Rank(states[n], chain[i]) {
      ChainDescends(max, states, acts, n, chain, i, j);
    }
    ChainDescends(max, states, acts, n, chain, 0, |chain| - 1);
  }

  lemma {:induction false} ChainDescends(max: nat, states: seq<State>, acts: seq<Action>, n: nat, chain: seq<Holder>,
                                         i: nat, j: nat)
    requires IsRun(max, states, acts) && n < |states| && i <= j < |chain|
    requires forall i | 0 <= i < |chain| - 1 :: WaitsFor(states[n], chain[i], chain[i + 1])
    ensures Rank(states[n], chain[j]) + (j - i) <= Rank(states[n], chain[i]) <= 2
    decreases j
  {
    if i < j {
      ChainDescends(max, states, acts, n, chain, i, j - 1);
      WaitingDescends(max, states, acts, n, chain[j - 1], chain[j]);
    }
  }

  /** Who takes a step. */
  function Actor(a: Action): Holder {
    match a
    case Call(t, _) => ByCaller(t)
    case LockM(t) => ByCaller(t)
    case SpawnBody(t, _) => ByCaller(t)
    case Lookup(t) => ByCaller(t)
    case LockA(t) => ByCaller(t)
    case TouchBody(t) => ByCaller(t)
    case SweepNext(t, _) => ByCaller(t)
    case SweepBody(t) => ByCaller(t)
    case SweepEnd(t) => ByCaller(t)
    case Built(id, _) => ByOwner(id)
    case LoopEnded(id, _) => ByOwner(id)
    case OwnerLockM(id) => ByOwner(id)
    case OwnerLockA(id) => ByOwner(id)
    case FailBody(id) => ByOwner(id)
    case EndBody(id) => ByOwner(id)
    case Release(id) => ByOwner(id)
  }

  /** Whoever holds an agent's lock can take a step, and that step frees it. */
  lemma AgentSectionEnds(max: nat, s: State, id: AgentID) returns (next: Action)
    requires Inv(max, s) && !ALock(s, id).Free?
    ensures Enabled(s, next) && Actor(next) == ALock(s, id)
    ensures ALock(Apply(max, s, next), id).Free?
  {
    HoldsAgent(max, s, id);
    match ALock(s, id)
    case ByOwner(o) => next := if s.owners[id].EndInA? then EndBody(id) else FailBody(id);
    case ByCaller(t) => next := if s.callers[t].TouchInA? then TouchBody(t) else SweepBody(t);
  }

  /** How many steps the holder of the manager lock is from freeing it. */
  ghost function StepsLeft(s: State): nat {
    match s.mlock
    case Free => 0
    case ByOwner(id) =>
      if id !in s.owners then 0
      else if s.owners[id].FailInM? then 3
      else if s.owners[id].FailInMA? then 2
      else 1
    case ByCaller(t) =>
      if t !in s.callers then 0
      else if s.callers[t].SweepInM? then 2 * |s.callers[t].todo| + 1
      else if s.callers[t].SweepInMA? then 2 * |s.callers[t].todo| + 2
      else 1
  }

  /** Whoever holds the manager lock can take a step that brings it nearer to
      freeing the lock, or waits for one agent's lock only, whose holder can take a
      step that frees that one. */
  lemma ManagerSectionEnds(max: nat, s: State) returns (next: Action)
    requires Inv(max, s) && !s.mlock.Free?
    ensures Enabled(s, next)
    ensures || (Actor(next) == s.mlock && StepsLeft(Apply(max, s, next)) < StepsLeft(s))
            || exists id :: WantsA(s, s.mlock, id) && Actor(next) == ALock(s, id)
                            && ALock(Apply(max, s, next), id).Free?
  {
    match s.mlock
    case ByOwner(o) =>
      if s.owners[o].FailInM? {
        if ALock(s, o).Free? {
          next := OwnerLockA(o);
        } else {
          assert WantsA(s, s.mlock, o);
          next := AgentSectionEnds(max, s, o);
        }
      } else if s.owners[o].FailInMA? {
        next := FailBody(o);
      } else {
        next := Release(o);
      }
    case ByCaller(t) =>
      match s.callers[t]
      case SpawnInM(_) => next := SpawnBody(t, None);
      case TouchInM(_, _) => next := Lookup(t);
      case SweepInMA(_, _, _) => next := SweepBody(t);
      case SweepInM(_, todo) =>
        if todo == {} {
          next := SweepEnd(t);
        } else {
          var id :| id in todo;
          if ALock(s, id).Free? {
            next := SweepNext(t, id);
          } else {
            assert WantsA(s, s.mlock, id);
            next := AgentSectionEnds(max, s, id);
          }
        }
  }

  /** A party waits for the lock that a step would take. */
  ghost predicate Waits(s: State, a: Action) {
    match a
    case LockM(t) => WantsM(s, ByCaller(t))
    case OwnerLockM(id) => WantsM(s, ByOwner(id))
    case LockA(t) => t in s.callers && s.callers[t].TouchWantA?
    case SweepNext(t, id) => t in s.callers && s.callers[t].SweepInM? && id in s.callers[t].todo
    case OwnerLockA(id) => WantsA(s, ByOwner(id), id)
    case _ => false
  }

  /** The agent whose lock a step would take; none for the manager lock. */
  ghost function Awaited(s: State, a: Action): Option<AgentID>
    requires Waits(s, a)
  {
    match a
    case LockA(t) => Some(s.callers[t].id)
    case SweepNext(_, id) => Some(id)
    case OwnerLockA(id) => Some(id)
    case _ => None
  }

  /** No deadlock: whoever waits for a lock, in any reachable state, can have it now;
      or the holder of that very lock can step towards freeing it; or the lock is the
      manager lock, its holder waits for one agent's lock, and the holder of that one
      can free it. */
  lemma NoDeadlock(max: nat, states: seq<State>, acts: seq<Action>, n: nat, blocked: Action) returns (next: Action)
    requires IsRun(max, states, acts) && n < |states| && Waits(states[n], blocked)
    ensures Enabled(states[n], next)
    ensures var s, s' := states[n], Apply(max, states[n], next);
      || next == blocked
      || (match Awaited(s, blocked)
          case Some(id) => Actor(next) == ALock(s, id) && ALock(s', id).Free?
          case None =>
            || (Actor(next) == s.mlock && StepsLeft(s') < StepsLeft(s))
            || exists id :: WantsA(s, s.mlock, id) && Actor(next) == ALock(s, id) && ALock(s', id).Free?)
  {
    RunKeepsInv(max, states, acts, n);
    var s := states[n];
    match Awaited(s, blocked)
    case None =>
      if s.mlock.Free? { next := blocked; } else { next := ManagerSectionEnds(max, s); }
    case Some(id) =>
      if ALock(s, id).Free? { next := blocked; } else { next := AgentSectionEnds(max, s, id); }
  }

  lemma Extend(max: nat, states: seq<State>, acts: seq<Action>, a: Action)
    returns (states': seq<State>, acts': seq<Action>)
    requires IsRun(max, states, acts) && Enabled(states[|acts|], a)
    ensures IsRun(max, states', acts') && states'[|acts'|] == Apply(max, states[|acts|], a)
    ensures |acts'| == |acts| + 1 && states'[..|acts'|] == states
  {
    states', acts' := states + [Apply(max, states[|acts|], a)], acts + [a];
    forall i | 0 <= i < |acts'| ensures StepAt(max, states', acts', i) {
      assert i < |acts| ==> StepAt(max, states, acts, i);
    }
  }

  lemma SpawnOne(max: nat, id: AgentID) returns (states: seq<State>, acts: seq<Action>)
    requires max > 0
    ensures IsRun(max, states, acts)
    ensures states[|acts|] == State(map[id := Agent("", "", Running)], 1, Free, map[], map[id := Building], map[])
  {
    states, acts := [Init()], [];
    states, acts := Extend(max, states, acts, Call(0, SpawnWantM(SpawnRequest("", "", false))));
    states, acts := Extend(max, states, acts, LockM(0));
    states, acts := Extend(max, states, acts, SpawnBody(0, Some(id)));
    assert states[|acts|].callers == map[];
  }

  lemma KillBuilding(max: nat, id: AgentID) returns (states: seq<State>, acts: seq<Action>)
    requires max > 0
    ensures IsRun(max, states, acts)
    ensures states[|acts|]
         == State(map[id := Agent("", "", Killed)], 1, Free, map[id := Free], map[id := Building], map[])
  {
    states, acts := SpawnOne(max, id);
    states, acts := Extend(max, states, acts, Call(1, TouchWantM(Kill, id)));
    states, acts := Extend(max, states, acts, LockM(1));
    states, acts := Extend(max, states, acts, Lookup(1));
    states, acts := Extend(max, states, acts, LockA(1));
    states, acts := Extend(max, states, acts, TouchBody(1));
    assert states[|acts|].callers == map[];
  }

  /** The exception is real: an agent killed while its loop is being built turns
      from Killed to Failed when the loop factory then fails. */
  lemma FactoryFailureOverwritesKilled(max: nat, id: AgentID) returns (states: seq<State>, acts: seq<Action>, n: nat)
    requires max > 0
    ensures IsRun(max, states, acts) && n <= |acts|
    ensures id in states[n].agents && states[n].agents[id].status == Killed
    ensures id in states[|acts|].agents && states[|acts|].agents[id].status == Failed
  {
    states, acts := KillBuilding(max, id);
    n := |acts|;
    states, acts := Extend(max, states, acts, Built(id, false));
    states, acts := Extend(max, states, acts, OwnerLockM(id));
    states, acts := Extend(max, states, acts, OwnerLockA(id));
    states, acts := Extend(max, states, acts, FailBody(id));
  }

  // ---------------------------------------------------------------------
  // The manager object
  // ---------------------------------------------------------------------

  class SubAgent {
    const id: AgentID
    const parentID: string
    const sessionID: string
    var status: Status
    var history: seq<string>
    var cancelled: bool

    constructor (id: AgentID, parentID: string, sessionID: string, initialMessage: string)
      ensures this.id == id && this.parentID == parentID && this.sessionID == sessionID
      ensures status == Running && history == [initialMessage] && !cancelled
    {
      this.id, this.parentID, this.sessionID := id, parentID, sessionID;
      status, history, cancelled := Running, [initialMessage], false;
    }
  }

  datatype TouchError = NotFound | NotRunning | AlreadyFinished

  class Manager {
    const maxConcurrent: nat
    const maxHistory: nat
    var agents: map<AgentID, SubAgent>
    var active: int
    ghost var view: map<AgentID, Agent>
    ghost var repr: set<SubAgent>

    ghost predicate Valid()
      reads this, repr
    {
      && view.Keys == agents.Keys && maxHistory > 0
      && forall id | id in agents ::
           && agents[id] in repr && agents[id].id == id
           && view[id] == Agent(agents[id].parentID, agents[id].sessionID, agents[id].status)
    }

    constructor (maxConcurrent: int, maxHistory: int)
      ensures Valid() && view == map[] && active == 0
      ensures this.maxConcurrent == (if maxConcurrent <= 0 then 5 else maxConcurrent)
    {
      this.maxConcurrent := if maxConcurrent <= 0 then 5 else maxConcurrent;
      this.maxHistory := if maxHistory <= 0 then 50 else maxHistory;
      agents, active, view, repr := map[], 0, map[], {};
    }

    /** The scan of Spawn for an agent of the same parent in another session. */
    method SessionClash(req: SpawnRequest) returns (clash: bool)
      requires Valid()
      ensures clash <==> exists id :: id in view && Clashes(view[id], req)
    {
      if req.sessionID == "" || req.parentID == "" {
        return false;
      }
      var todo := agents.Keys;
      while todo != {}
        invariant todo <= agents.Keys
        invariant forall id | id in view && id !in todo :: !Clashes(view[id], req)
        decreases todo
      {
        var id :| id in todo;
        var sa := agents[id];
        if sa.parentID == req.parentID && sa.sessionID != "" && sa.sessionID != req.sessionID {
          return true;
        }
        todo := todo - {id};
      }
      clash := false;
    }

    /** Spawn up to the end of its locked section; `newID` is the outcome of the
        random generator, which does not repeat itself. */
    method SpawnSection(req: SpawnRequest, initialMessage: string, newID: Option<AgentID>)
      returns (res: Result<AgentID, SpawnError>)
      requires Valid() && (newID.Some? ==> newID.value !in agents)
      modifies this
      ensures Valid()
      ensures res.Err? ==> view == old(view) && active == old(active)
      ensures req.isSubAgent ==> res == Err(RecursiveSpawn)
      ensures !req.isSubAgent ==>
                match SpawnRefusal(old(view), old(active), maxConcurrent, req)
                case Some(e) => res == Err(e)
                case None => res == if newID.Some? then Ok(newID.value) else Err(NoID)
      ensures res.Ok? ==> newID == Some(res.value) && active == old(active) + 1
      ensures res.Ok? ==> view == old(view)[res.value := Agent(req.parentID, req.sessionID, Running)]
    {
      if req.isSubAgent {
        return Err(RecursiveSpawn);
      }
      var clash := SessionClash(req);
      if clash {
        return Err(CrossSession);
      }
      if active >= maxConcurrent {
        return Err(MaxConcurrent);
      }
      if newID.None? {
        return Err(NoID);
      }
      AddAgent(newID.value, req, initialMessage);
      return Ok(newID.value);
    }

    method AddAgent(id: AgentID, req: SpawnRequest, initialMessage: string)
      requires Valid() && id !in agents
      modifies this
      ensures Valid() && active == old(active) + 1
      ensures view == old(view)[id := Agent(req.parentID, req.sessionID, Running)]
    {
      var sa := new SubAgent(id, req.parentID, req.sessionID, initialMessage);
      agents, repr := agents[id := sa], repr + {sa};
      view := view[id := Agent(req.parentID, req.sessionID, Running)];
      active := active + 1;
    }

    ghost predicate Has(id: AgentID, sa: SubAgent)
      reads this
    {
      id in agents && agents[id] == sa && id in view
    }

    /** Writes the status of one agent. */
    method SetAgentStatus(id: AgentID, sa: SubAgent, st: Status)
      requires Valid() && Has(id, sa)
      modifies this`view, sa`status
      ensures Valid() && view == SetStatus(old(view), id, st)
    {
      sa.status := st;
      view := SetStatus(view, id, st);
    }

    /** The failure path of Spawn. */
    method FailSection(id: AgentID, sa: SubAgent)
      requires Valid() && Has(id, sa)
      modifies this`view, this`active, sa`status
      ensures Valid() && view == SetStatus(old(view), id, Failed) && active == old(active) - 1
    {
      SetAgentStatus(id, sa, Failed);
      active := active - 1;
    }

    /** The end of runAgent under the agent's lock. On success the reply joins
        the history, of which only the last `maxHistory` messages are kept. */
    method EndSection(id: AgentID, sa: SubAgent, o: Outcome, content: string)
      requires Valid() && Has(id, sa)
      modifies this`view, sa
      ensures Valid() && view == SetStatus(old(view), id, FinishStatus(old(view)[id].status, o))
      ensures sa.history ==
                if old(sa.status).Killed? || !o.Success? || content == "" then old(sa.history)
                else LastOf(old(sa.history) + [content], maxHistory)
    {
      if sa.status.Killed? {
        view := SetStatus(view, id, Killed);
        return;
      }
      SetAgentStatus(id, sa, FinishStatus(sa.status, o));
      if o.Success? && content != "" {
        sa.history := sa.history + [content];
        if |sa.history| > maxHistory {
          sa.history := sa.history[|sa.history| - maxHistory..];
        }
      }
    }

    /** The deferred release of the slot at the end of runAgent. */
    method ReleaseSection()
      requires Valid()
      modifies this`active
      ensures Valid() && active == old(active) - 1
    {
      active := active - 1;
    }

    method Kill(id: AgentID) returns (err: Option<TouchError>)
      requires Valid()
      modifies this`view, repr
      ensures Valid()
      ensures id !in old(view) ==> err == Some(NotFound) && view == old(view)
      ensures id in old(view) ==> view == SetStatus(old(view), id, KillStatus(old(view)[id].status))
      ensures id in old(view) ==> (err == None <==> old(view)[id].status.Running?)
      ensures err == None ==> id in agents && agents[id].cancelled
    {
      if id !in agents {
        return Some(NotFound);
      }
      var sa := agents[id];
      if !sa.status.Running? {
        view := SetStatus(view, id, sa.status);
        return Some(AlreadyFinished);
      }
      SetAgentStatus(id, sa, Killed);
      sa.cancelled := true;
      return None;
    }

    /** Send appends to the history of a running agent and of no other. */
    method SendMessage(id: AgentID, message: string) returns (err: Option<TouchError>)
      requires Valid()
      modifies repr
      ensures Valid() && view == old(view)
      ensures err == None <==> id in view && view[id].status.Running?
      ensures forall sa | sa in old(repr) ::
                sa.history == if err == None && sa == agents[id] then old(sa.history) + [message] else old(sa.history)
    {
      if id !in agents {
        return Some(NotFound);
      }
      var sa := agents[id];
      if !sa.status.Running? {
        return Some(NotRunning);
      }
      sa.history := sa.history + [message];
      return None;
    }

    /** The locked section of Shutdown for one agent. */
    method KillIfRunning(id: AgentID, sa: SubAgent)
      requires Valid() && Has(id, sa)
      modifies this`view, sa`status, sa`cancelled
      ensures Valid() && view == SetStatus(old(view), id, KillStatus(old(view)[id].status))
    {
      if sa.status.Running? {
        SetAgentStatus(id, sa, Killed);
        sa.cancelled := true;
      } else {
        view := SetStatus(view, id, sa.status);
      }
    }

    /** Shutdown kills every running agent and changes no other status. */
    method ShutdownAll()
      requires Valid()
      modifies this`view, repr
      ensures Valid() && view == map id | id in old(view) :: old(view)[id].(status := KillStatus(old(view)[id].status))
    {
      var todo := agents.Keys;
      ghost var was := view;
      while todo != {}
        invariant Valid() && todo <= agents.Keys && view.Keys == was.Keys
        invariant forall id | id in was ::
          view[id] == if id in todo then was[id] else was[id].(status := KillStatus(was[id].status))
        decreases todo
      {
        var id :| id in todo;
        todo := todo - {id};
        KillIfRunning(id, agents[id]);
      }
    }
  }

  function LastOf(s: seq<string>, n: nat): seq<string> { if |s| > n then s[|s| - n..] else s }
}
