/** The inbox of the router and its worker pool
  (internal/router/router.go, internal/router/pool.go).

  Submitters send under the read lock, Stop closes the channel under the write
  lock, workers receive until the channel is closed and empty. */
module RouterInbox {
  import opened Options

  type Tid = nat
  type Envelope = nat  // the payload is irrelevant; equal payloads may be submitted twice

  datatype SubmitPC =
    | WantRead          // before inboxMu.RLock
    | CheckStopped      // holds the read lock
    | Screening         // approval bypass, validation and rate limit, not stopped
    | Sending           // about to run the non-blocking send
    | Leaving           // the deferred RUnlock is still to run

  datatype SubmitCall = SubmitCall(env: Envelope, pc: SubmitPC)

  /** A Start call is launching workers, `left` of them still to come. */
  datatype StartPC = WantWrite | Checking | Launching(left: nat)

  datatype StopPC = NotCalled | WantLock | Locked | MarkedStopped | Closed | Waiting | Returned

  /** Who holds the write lock: the Stop call, or a Start at its check. */
  datatype Writer = Nobody | StopCall | StartCall(t: Tid)

  datatype WorkerPC = Ready | Handling(index: nat) | Exited

  /** `inbox`, `stopped`, `closed` and the two lock fields are the state of the
      router; `sent` and `taken` log what was enqueued and what was handed to the
      handler, in order, and `taker` by which worker; `armed` records that a Start had completed when Stop began. */
  datatype State = State(
    inbox: seq<Envelope>,
    stopped: bool,
    closed: bool,
    readers: set<Tid>,
    writer: Writer,
    submits: map<Tid, SubmitCall>,
    starts: map<Tid, StartPC>,
    startsDone: nat,
    workers: seq<WorkerPC>,
    stop: StopPC,
    armed: bool,
    sent: seq<Envelope>,
    taken: seq<Envelope>,
    taker: seq<nat>,
    finished: set<nat>)

  datatype Config = Config(workerCount: nat, inboxSize: nat)

  /** Non-positive sizes are replaced by the defaults before a router is built. */
  ghost predicate ValidConfig(c: Config) { c.workerCount > 0 && c.inboxSize > 0 }

  function WithDefaults(workerCount: int, inboxSize: int): (c: Config)
    ensures ValidConfig(c)
  {
    Config(if workerCount <= 0 then 10 else workerCount, if inboxSize <= 0 then 256 else inboxSize)
  }

  datatype Action =
    | SubmitBegin(t: Tid, env: Envelope)
    | SubmitRLock(t: Tid)
    | SubmitCheck(t: Tid)
    | SubmitScreen(t: Tid, pass: bool)
    | SubmitSend(t: Tid)
    | SubmitRUnlock(t: Tid)
    | StartBegin(t: Tid)
    | StartLock(t: Tid)
    | StartCheck(t: Tid)
    | StartWorker(t: Tid)
    | StartEnd(t: Tid)
    | Receive(w: nat)
    | Finish(w: nat)
    | Exit(w: nat)
    | StopBegin
    | StopLock
    | StopMark
    | StopClose
    | StopUnlock
    | StopWait

  function Init(): State {
    State([], false, false, {}, Nobody, map[], map[], 0, [], NotCalled, false, [], [], [], {})
  }

  ghost predicate At(s: State, t: Tid, pc: SubmitPC) { t in s.submits && s.submits[t].pc == pc }

  ghost predicate WorkerAt(s: State, w: nat) { w < |s.workers| }

  /** The wait group is zero: every launched worker has returned. */
  ghost predicate AllExited(workers: seq<WorkerPC>) { forall w | 0 <= w < |workers| :: workers[w].Exited? }

  ghost predicate Enabled(c: Config, s: State, a: Action) {
    match a
    case SubmitBegin(t, _) => t !in s.submits
    case SubmitRLock(t) => At(s, t, WantRead) && s.writer.Nobody?
    case SubmitCheck(t) => At(s, t, CheckStopped)
    case SubmitScreen(t, _) => At(s, t, Screening)
    case SubmitSend(t) => At(s, t, Sending)
    case SubmitRUnlock(t) => At(s, t, Leaving)
    case StartBegin(t) => t !in s.starts
    case StartLock(t) => t in s.starts && s.starts[t].WantWrite? && s.writer.Nobody? && s.readers == {}
    case StartCheck(t) => t in s.starts && s.starts[t].Checking?
    case StartWorker(t) => t in s.starts && s.starts[t].Launching? && s.starts[t].left > 0
    case StartEnd(t) => t in s.starts && s.starts[t] == Launching(0)
    case Receive(w) => WorkerAt(s, w) && s.workers[w].Ready? && s.inbox != []
    case Finish(w) => WorkerAt(s, w) && s.workers[w].Handling?
    case Exit(w) => WorkerAt(s, w) && s.workers[w].Ready? && s.closed && s.inbox == []
    case StopBegin => s.stop.NotCalled?
    case StopLock => s.stop.WantLock? && s.writer.Nobody? && s.readers == {}
    case StopMark => s.stop.Locked?
    case StopClose => s.stop.MarkedStopped?
    case StopUnlock => s.stop.Closed?
    case StopWait => s.stop.Waiting? && AllExited(s.workers)
  }

  /** The non-blocking send: a full inbox drops the message. */
  function TrySend(inbox: seq<Envelope>, e: Envelope, capacity: nat): seq<Envelope> {
    if |inbox| < capacity then inbox + [e] else inbox
  }

  function SetSubmit(s: State, t: Tid, pc: SubmitPC): State
    requires t in s.submits
  {
    s.(submits := s.submits[t := s.submits[t].(pc := pc)])
  }

  ghost function Apply(c: Config, s: State, a: Action): State
    requires Enabled(c, s, a)
  {
    match a
    case SubmitBegin(t, e) => s.(submits := s.submits[t := SubmitCall(e, WantRead)])
    case SubmitRLock(t) => SetSubmit(s, t, CheckStopped).(readers := s.readers + {t})
    case SubmitCheck(t) => SetSubmit(s, t, if s.stopped then Leaving else Screening)
    case SubmitScreen(t, pass) => SetSubmit(s, t, if pass then Sending else Leaving)
    case SubmitSend(t) =>
      var e := s.submits[t].env;
      SetSubmit(s, t, Leaving).(
        inbox := TrySend(s.inbox, e, c.inboxSize),
        sent := if |s.inbox| < c.inboxSize then s.sent + [e] else s.sent)
    case SubmitRUnlock(t) => s.(submits := s.submits - {t}, readers := s.readers - {t})
    case StartBegin(t) => s.(starts := s.starts[t := WantWrite])
    case StartLock(t) => s.(starts := s.starts[t := Checking], writer := StartCall(t))
    case StartCheck(t) =>
      if s.stopped then s.(starts := s.starts - {t}, writer := Nobody)
      else s.(starts := s.starts[t := Launching(c.workerCount)], writer := Nobody)
    case StartWorker(t) =>
      s.(starts := s.starts[t := Launching(s.starts[t].left - 1)], workers := s.workers + [Ready])
    case StartEnd(t) => s.(starts := s.starts - {t}, startsDone := s.startsDone + 1)
    case Receive(w) =>
      s.(workers := s.workers[w := Handling(|s.taken|)], taken := s.taken + [s.inbox[0]],
         taker := s.taker + [w], inbox := s.inbox[1..])
    case Finish(w) => s.(workers := s.workers[w := Ready], finished := s.finished + {s.workers[w].index})
    case Exit(w) => s.(workers := s.workers[w := Exited])
    case StopBegin => s.(stop := WantLock, armed := s.startsDone > 0)
    case StopLock => s.(stop := Locked, writer := StopCall)
    case StopMark => s.(stop := MarkedStopped, stopped := true)
    case StopClose => s.(stop := Closed, closed := true)
    case StopUnlock => s.(stop := Waiting, writer := Nobody)
    case StopWait => s.(stop := Returned)
  }

  // ----- the invariant, by parts -----

  /** A thread is a reader exactly while its Submit holds the read lock. */
  ghost predicate ReadersExact(readers: set<Tid>, submits: map<Tid, SubmitCall>) {
    && (forall t | t in readers :: t in submits && !submits[t].pc.WantRead?)
    && (forall t | t in submits && !submits[t].pc.WantRead? :: t in readers)
  }

  /** The write lock is never held together with a read lock; its holder is the
      Stop call or the one Start that stands at its check. */
  ghost predicate WriterExact(readers: set<Tid>, writer: Writer, starts: map<Tid, StartPC>, stop: StopPC) {
    && (!writer.Nobody? ==> readers == {})
    && (writer.StopCall? <==> stop.Locked? || stop.MarkedStopped? || stop.Closed?)
    && (forall t | t in starts && starts[t].Checking? :: writer == StartCall(t))
  }

  ghost predicate FlagsExact(stopped: bool, closed: bool, stop: StopPC) {
    && (stopped <==> stop.MarkedStopped? || stop.Closed? || stop.Waiting? || stop.Returned?)
    && (closed <==> stop.Closed? || stop.Waiting? || stop.Returned?)
  }

  /** Past the stopped check nobody can have marked the router, because the read
      lock has been held ever since. */
  ghost predicate SendersSafe(stopped: bool, submits: map<Tid, SubmitCall>) {
    forall t | t in submits && (submits[t].pc.Screening? || submits[t].pc.Sending?) :: !stopped
  }

  /** First in, first out, nothing lost and nothing duplicated. */
  ghost predicate Conserved(inbox: seq<Envelope>, sent: seq<Envelope>, taken: seq<Envelope>) {
    sent == taken + inbox
  }

  /** Every message handed over is either in the hands of the one worker that
      took it or finished, never both. */
  ghost predicate HandsExact(workers: seq<WorkerPC>, taker: seq<nat>, finished: set<nat>) {
    && (forall i | i in finished :: i < |taker|)
    && (forall w, i: nat {:trigger workers[w], Handling(i)} | 0 <= w < |workers| && workers[w] == Handling(i) ::
          i < |taker| && taker[i] == w && i !in finished)
    && (forall i | 0 <= i < |taker| && i !in finished :: taker[i] < |workers| && workers[taker[i]] == Handling(i))
  }

  /** A worker has exited only once the closed inbox was empty. */
  ghost predicate ExitsDrained(workers: seq<WorkerPC>, closed: bool, inbox: seq<Envelope>) {
    forall w | 0 <= w < |workers| && workers[w].Exited? :: closed && inbox == []
  }

  /** A completed Start has launched at least one worker; with no worker
      nothing was taken. */
  ghost predicate Launched(s: State) {
    && (s.startsDone > 0 || s.armed || s.taken != [] ==> s.workers != [])
    && (forall t | t in s.starts && s.starts[t].Launching? && s.workers == [] :: s.starts[t].left > 0)
  }

  /** What holds once the wait of an armed Stop has returned. */
  ghost predicate Drained(s: State) {
    s.stop.Returned? && s.armed ==>
      s.closed && s.inbox == [] && forall i | 0 <= i < |s.taken| :: i in s.finished
  }

  ghost predicate Inv(c: Config, s: State) {
    && |s.inbox| <= c.inboxSize && |s.taker| == |s.taken|
    && ReadersExact(s.readers, s.submits)
    && WriterExact(s.readers, s.writer, s.starts, s.stop)
    && FlagsExact(s.stopped, s.closed, s.stop)
    && SendersSafe(s.stopped, s.submits)
    && Conserved(s.inbox, s.sent, s.taken)
    && HandsExact(s.workers, s.taker, s.finished)
    && ExitsDrained(s.workers, s.closed, s.inbox)
    && Launched(s) && Drained(s)
  }

  // ----- each step keeps the invariant -----

  lemma ReadersAfter(readers: set<Tid>, submits: map<Tid, SubmitCall>, t: Tid, call: SubmitCall)
    requires ReadersExact(readers, submits)
    ensures call.pc.WantRead? && t !in submits ==> ReadersExact(readers, submits[t := call])
    ensures !call.pc.WantRead? ==> ReadersExact(readers + {t}, submits[t := call])
    ensures !call.pc.WantRead? && t in readers ==> ReadersExact(readers, submits[t := call])
    ensures ReadersExact(readers - {t}, submits - {t})
  {
  }

  lemma StepKeepsReaders(c: Config, s: State, a: Action)
    requires Enabled(c, s, a) && ReadersExact(s.readers, s.submits)
    ensures var s' := Apply(c, s, a); ReadersExact(s'.readers, s'.submits)
  {
    match a
    case SubmitBegin(t, e) => ReadersAfter(s.readers, s.submits, t, SubmitCall(e, WantRead));
    case SubmitRLock(t) => ReadersAfter(s.readers, s.submits, t, s.submits[t].(pc := CheckStopped));
    case SubmitCheck(t) =>
      ReadersAfter(s.readers, s.submits, t, s.submits[t].(pc := if s.stopped then Leaving else Screening));
    case SubmitScreen(t, pass) =>
      ReadersAfter(s.readers, s.submits, t, s.submits[t].(pc := if pass then Sending else Leaving));
    case SubmitSend(t) => ReadersAfter(s.readers, s.submits, t, s.submits[t].(pc := Leaving));
    case SubmitRUnlock(t) => ReadersAfter(s.readers, s.submits, t, s.submits[t]);
    case _ =>
  }

  lemma StepKeepsWriter(c: Config, s: State, a: Action)
    requires Enabled(c, s, a) && WriterExact(s.readers, s.writer, s.starts, s.stop)
    ensures var s' := Apply(c, s, a); WriterExact(s'.readers, s'.writer, s'.starts, s'.stop)
  {
  }

  /** Stop marks the router only when no reader is left, so a Submit that has
      passed its check still sees an open inbox. */
  lemma StepKeepsFlags(c: Config, s: State, a: Action)
    requires Enabled(c, s, a)
    requires ReadersExact(s.readers, s.submits) && WriterExact(s.readers, s.writer, s.starts, s.stop)
    requires FlagsExact(s.stopped, s.closed, s.stop) && SendersSafe(s.stopped, s.submits)
    ensures var s' := Apply(c, s, a);
            FlagsExact(s'.stopped, s'.closed, s'.stop) && SendersSafe(s'.stopped, s'.submits)
  {
  }

  lemma StepKeepsQueue(c: Config, s: State, a: Action)
    requires Enabled(c, s, a) && |s.inbox| <= c.inboxSize && |s.taker| == |s.taken|
    requires Conserved(s.inbox, s.sent, s.taken)
    ensures var s' := Apply(c, s, a);
            |s'.inbox| <= c.inboxSize && |s'.taker| == |s'.taken| && Conserved(s'.inbox, s'.sent, s'.taken)
  {
    if a.Receive? {
      assert s.taken + s.inbox == (s.taken + [s.inbox[0]]) + s.inbox[1..];
    }
  }

  lemma ReceiveKeepsHands(workers: seq<WorkerPC>, taker: seq<nat>, finished: set<nat>, w: nat)
    requires HandsExact(workers, taker, finished) && w < |workers| && workers[w].Ready?
    ensures HandsExact(workers[w := Handling(|taker|)], taker + [w], finished)
  {
  }

  lemma FinishKeepsHands(workers: seq<WorkerPC>, taker: seq<nat>, finished: set<nat>, w: nat)
    requires HandsExact(workers, taker, finished) && w < |workers| && workers[w].Handling?
    ensures HandsExact(workers[w := Ready], taker, finished + {workers[w].index})
  {
    var j := workers[w].index;
    assert workers[w] == Handling(j);
  }

  lemma OtherKeepsHands(workers: seq<WorkerPC>, taker: seq<nat>, finished: set<nat>, w: nat)
    requires HandsExact(workers, taker, finished)
    ensures HandsExact(workers + [Ready], taker, finished)
    ensures w < |workers| && workers[w].Ready? ==> HandsExact(workers[w := Exited], taker, finished)
  {
  }

  lemma StepKeepsHands(c: Config, s: State, a: Action)
    requires Enabled(c, s, a) && |s.taker| == |s.taken| && HandsExact(s.workers, s.taker, s.finished)
    ensures var s' := Apply(c, s, a); HandsExact(s'.workers, s'.taker, s'.finished)
  {
    match a
    case Receive(w) => ReceiveKeepsHands(s.workers, s.taker, s.finished, w);
    case Finish(w) => FinishKeepsHands(s.workers, s.taker, s.finished, w);
    case Exit(w) => OtherKeepsHands(s.workers, s.taker, s.finished, w);
    case StartWorker(_) => OtherKeepsHands(s.workers, s.taker, s.finished, 0);
    case _ =>
  }

  lemma StepKeepsDrain(c: Config, s: State, a: Action)
    requires ValidConfig(c) && Enabled(c, s, a) && Inv(c, s)
    ensures var s' := Apply(c, s, a); ExitsDrained(s'.workers, s'.closed, s'.inbox) && Launched(s')
  {
  }

  lemma StepKeepsReturn(c: Config, s: State, a: Action)
    requires ValidConfig(c) && Enabled(c, s, a) && Inv(c, s)
    ensures Drained(Apply(c, s, a))
  {
    if a.StopWait? && s.armed {
      assert s.workers[0].Exited?;
    }
  }

  lemma StepKeepsInv(c: Config, s: State, a: Action)
    requires ValidConfig(c) && Enabled(c, s, a) && Inv(c, s)
    ensures Inv(c, Apply(c, s, a))
  {
    StepKeepsReaders(c, s, a);
    StepKeepsWriter(c, s, a);
    StepKeepsFlags(c, s, a);
    StepKeepsQueue(c, s, a);
    StepKeepsHands(c, s, a);
    StepKeepsDrain(c, s, a);
    StepKeepsReturn(c, s, a);
  }

  // ----- whole runs -----

  ghost predicate IsRun(c: Config, states: seq<State>, acts: seq<Action>) {
    && ValidConfig(c) && |states| == |acts| + 1 && states[0] == Init()
    && forall i | 0 <= i < |acts| :: Enabled(c, states[i], acts[i]) && states[i + 1] == Apply(c, states[i], acts[i])
  }

  lemma {:induction false} RunKeepsInv(c: Config, states: seq<State>, acts: seq<Action>, n: nat)
    requires IsRun(c, states, acts) && n < |states|
    ensures Inv(c, states[n])
  {
    if n > 0 {
      RunKeepsInv(c, states, acts, n - 1);
      StepKeepsInv(c, states[n - 1], acts[n - 1]);
    }
  }

  /** Nothing is ever sent on the closed inbox, and the queue never exceeds its
      capacity. */
  lemma NoSendOnClosed(c: Config, states: seq<State>, acts: seq<Action>, n: nat, t: Tid)
    requires IsRun(c, states, acts) && n < |states|
    ensures At(states[n], t, Sending) ==> !states[n].closed
    ensures |states[n].inbox| <= c.inboxSize
  {
    RunKeepsInv(c, states, acts, n);
  }

  /** The channel is closed at most once and by a thread that holds the write
      lock alone. */
  lemma CloseIsExclusive(c: Config, states: seq<State>, acts: seq<Action>, n: nat)
    requires IsRun(c, states, acts) && n < |acts| && acts[n].StopClose?
    ensures !states[n].closed && states[n].writer.StopCall? && states[n].readers == {}
  {
    RunKeepsInv(c, states, acts, n);
  }

  /** At every moment the enqueued messages are those handed to the handler, in
      the order of enqueueing, followed by those still queued. */
  lemma FirstInFirstOut(c: Config, states: seq<State>, acts: seq<Action>, n: nat)
    requires IsRun(c, states, acts) && n < |states|
    ensures states[n].sent == states[n].taken + states[n].inbox
    ensures forall v, w | 0 <= v < w < |states[n].workers| && states[n].workers[v].Handling?
                        && states[n].workers[w].Handling? :: states[n].workers[v] != states[n].workers[w]
  {
    RunKeepsInv(c, states, acts, n);
    var s := states[n];
    forall v, w | 0 <= v < w < |s.workers| && s.workers[v].Handling? && s.workers[w].Handling?
      ensures s.workers[v] != s.workers[w]
    {
      var i, j := s.workers[v].index, s.workers[w].index;
      assert s.workers[v] == Handling(i) && s.workers[w] == Handling(j);
    }
  }

  /** When a Start had completed before Stop began, then from the moment Stop
      returns every enqueued message has been handed to the handler exactly once,
      in order, and every handler call has returned. */
  lemma NothingLostAtStop(c: Config, states: seq<State>, acts: seq<Action>, n: nat)
    requires IsRun(c, states, acts) && n < |states| && states[n].stop.Returned? && states[n].armed
    ensures states[n].taken == states[n].sent
    ensures forall i: nat :: i in states[n].finished <==> i < |states[n].sent|
  {
    RunKeepsInv(c, states, acts, n);
  }

  /** In general the wait of Stop ends with nothing lost if and only if nothing
      was enqueued or some worker had been launched by then. */
  lemma DrainedExactlyWhen(c: Config, states: seq<State>, acts: seq<Action>, n: nat)
    requires IsRun(c, states, acts) && n < |acts| && acts[n].StopWait?
    ensures states[n].taken == states[n].sent <==> states[n].sent == [] || states[n].workers != []
  {
    RunKeepsInv(c, states, acts, n);
    if states[n].workers != [] {
      assert states[n].workers[0].Exited?;
    }
  }

  lemma Extend(c: Config, states: seq<State>, acts: seq<Action>, a: Action)
    returns (states': seq<State>, acts': seq<Action>)
    requires IsRun(c, states, acts) && Enabled(c, states[|acts|], a)
    ensures IsRun(c, states', acts') && states'[|acts'|] == Apply(c, states[|acts|], a)
  {
    states', acts' := states + [Apply(c, states[|acts|], a)], acts + [a];
  }

  lemma OneQueued(c: Config, e: Envelope) returns (states: seq<State>, acts: seq<Action>)
    requires ValidConfig(c)
    ensures IsRun(c, states, acts) && states[|acts|] == Init().(inbox := [e], sent := [e])
  {
    states, acts := [Init()], [];
    states, acts := Extend(c, states, acts, SubmitBegin(0, e));
    states, acts := Extend(c, states, acts, SubmitRLock(0));
    states, acts := Extend(c, states, acts, SubmitCheck(0));
    states, acts := Extend(c, states, acts, SubmitScreen(0, true));
    states, acts := Extend(c, states, acts, SubmitSend(0));
    states, acts := Extend(c, states, acts, SubmitRUnlock(0));
    assert states[|acts|].submits == map[] && states[|acts|].readers == {};
  }

  /** The last steps of a Stop that found the write lock free. */
  lemma StopFromLock(c: Config, states: seq<State>, acts: seq<Action>)
    returns (states': seq<State>, acts': seq<Action>)
    requires IsRun(c, states, acts) && states[|acts|].stop.Locked? && AllExited(states[|acts|].workers)
    ensures IsRun(c, states', acts') && states'[|acts'|].stop.Returned?
    ensures states'[|acts'|].sent == states[|acts|].sent && states'[|acts'|].taken == states[|acts|].taken
  {
    states', acts' := Extend(c, states, acts, StopMark);
    states', acts' := Extend(c, states', acts', StopClose);
    states', acts' := Extend(c, states', acts', StopUnlock);
    states', acts' := Extend(c, states', acts', StopWait);
  }

  /** Without a Start that completed first, messages can be left behind: Submit
      enqueues, Stop closes and returns, and no worker ever runs. */
  lemma StopWithoutStartLoses(c: Config, e: Envelope) returns (states: seq<State>, acts: seq<Action>)
    requires ValidConfig(c)
    ensures IsRun(c, states, acts) && states[|acts|].stop.Returned?
    ensures states[|acts|].sent == [e] && states[|acts|].taken == []
  {
    states, acts := OneQueued(c, e);
    states, acts := Extend(c, states, acts, StopBegin);
    states, acts := Extend(c, states, acts, StopLock);
    states, acts := StopFromLock(c, states, acts);
  }
}
