/** The synchronous reasoning loop (internal/agent/loop.go, Run). */
module AgentLoop {
  import opened Options
  import opened AgentTypes
  import opened Messages
  import opened Sequences

  /** One execution of the tool calls of a response, and what had been spent then. */
  datatype Batch = Batch(iteration: nat, calls: seq<ToolCall>, spent: Usage)

  /** The local variables of the loop, with three logs of what it has done:
      the requests sent, the answers received and the tool batches run. */
  datatype LoopState = LoopState(
    i: nat,
    messages: seq<Message>,
    records: seq<ToolRecord>,
    usage: Usage,
    counts: map<string, nat>,
    requests: seq<seq<Message>>,
    answers: seq<Completion>,
    batches: seq<Batch>)

  function Begin(req: Request): LoopState {
    LoopState(0, InitialMessages(req), [], NO_USAGE, map[], [], [], [])
  }

  /** A loop that has ended: its response, its error if any, and its logs. */
  datatype Ended = Ended(resp: Response, err: Option<Error>, last: LoopState)

  datatype Progress = Continue(st: LoopState) | Stop(ended: Ended)

  function Reply(cfg: LoopConfig, w: World, st: LoopState, content: string, iterations: nat,
                 reason: StopReason): Response {
    Response(content, st.records, st.usage, iterations, reason, w.modelName, cfg.providerName)
  }

  function StopWith(cfg: LoopConfig, w: World, st: LoopState, iterations: nat, reason: StopReason, e: Error): Progress {
    Stop(Ended(Reply(cfg, w, st, "", iterations, reason), Some(e), st))
  }

  /** The conversation after one round of tool calls. */
  function AfterTools(w: World, st: LoopState, content: string, calls: seq<ToolCall>,
                      counts: map<string, nat>): LoopState {
    var records := ExecuteAll(w, st.i, calls);
    st.(i := st.i + 1,
        messages := st.messages + [AssistantMessage(content, calls)] + ToolMessages(records),
        records := st.records + records,
        counts := counts,
        batches := st.batches + [Batch(st.i, calls, st.usage)])
  }

  /** What follows a completion: budget, end of reasoning, loop check, tools. */
  function AfterAnswer(cfg: LoopConfig, w: World, st: LoopState, c: Completion): Progress {
    if Exceeded(cfg.tokenBudget, st.usage) then StopWith(cfg, w, st, st.i + 1, TokenBudget, TokenBudgetExceeded)
    else if c.toolCalls == [] then Stop(Ended(Reply(cfg, w, st, c.content, st.i + 1, Complete), None, st))
    else
      var (counts, hit) := RecordAll(w, cfg.loopThreshold, st.counts, c.toolCalls);
      if hit then StopWith(cfg, w, st.(counts := counts), st.i + 1, LoopDetected, LoopFound)
      else Continue(AfterTools(w, st, c.content, c.toolCalls, counts))
  }

  /** One iteration of Run. */
  function Iterate(cfg: LoopConfig, w: World, st: LoopState): (p: Progress)
    ensures p.Continue? ==> p.st.i == st.i + 1
  {
    match w.ctxErr(st.i)
    case Some(e) =>
      StopWith(cfg, w, st, st.i, if e.ContextDone? && e.deadline then TimedOut else Failure, e)
    case None =>
      var sent := st.(requests := st.requests + [st.messages]);
      match w.complete(st.i, st.messages)
      case Err(e) => StopWith(cfg, w, sent, st.i, Failure, e)
      case Ok(c) =>
        AfterAnswer(cfg, w, sent.(usage := AddUsage(st.usage, c.usage), answers := st.answers + [c]), c)
  }

  /** The loop from a given state on. */
  function Reason(cfg: LoopConfig, w: World, st: LoopState): Ended
    decreases cfg.maxIterations - st.i
  {
    if st.i >= cfg.maxIterations then
      StopWith(cfg, w, st, cfg.maxIterations, MaxIterations, MaxIterationsReached).ended
    else
      match Iterate(cfg, w, st)
      case Stop(e) => e
      case Continue(st') => Reason(cfg, w, st')
  }

  /** Run, statement by statement. */
  method Run(cfg: LoopConfig, w: World, req: Request)
    returns (resp: Response, err: Option<Error>, ghost last: LoopState)
    ensures resp == Reason(cfg, w, Begin(req)).resp && err == Reason(cfg, w, Begin(req)).err
    ensures last == Reason(cfg, w, Begin(req)).last
  {
    var detector := new LoopDetector(cfg.loopThreshold);
    var tracker := new TokenTracker(cfg.tokenBudget);
    var messages := InitialMessages(req);
    var allToolCalls: seq<ToolRecord> := [];
    var i := 0;
    last := Begin(req);
    while i < cfg.maxIterations
      invariant i <= cfg.maxIterations
      invariant last.i == i && last.messages == messages && last.records == allToolCalls
      invariant last.usage == tracker.usage && last.counts == detector.counts
      invariant Reason(cfg, w, last) == Reason(cfg, w, Begin(req))
    {
      var ctxErr := w.ctxErr(i);
      if ctxErr.Some? {
        var reason := if ctxErr.value.ContextDone? && ctxErr.value.deadline then TimedOut else Failure;
        return Response("", allToolCalls, tracker.usage, i, reason, w.modelName, cfg.providerName), ctxErr, last;
      }
      var answer := w.complete(i, messages);
      last := last.(requests := last.requests + [messages]);
      if answer.Err? {
        return Response("", allToolCalls, tracker.usage, i, Failure, w.modelName, cfg.providerName),
               Some(answer.error), last;
      }
      var c := answer.value;
      tracker.Add(c.usage);
      last := last.(usage := tracker.usage, answers := last.answers + [c]);
      if Exceeded(tracker.budget, tracker.usage) {
        return Response("", allToolCalls, tracker.usage, i + 1, TokenBudget, w.modelName, cfg.providerName),
               Some(TokenBudgetExceeded), last;
      }
      if c.toolCalls == [] {
        return Response(c.content, allToolCalls, tracker.usage, i + 1, Complete, w.modelName, cfg.providerName),
               None, last;
      }
      var hit := detector.RecordCalls(w, c.toolCalls);
      last := last.(counts := detector.counts);
      if hit {
        return Response("", allToolCalls, tracker.usage, i + 1, LoopDetected, w.modelName, cfg.providerName),
               Some(LoopFound), last;
      }
      messages := messages + [AssistantMessage(c.content, c.toolCalls)];
      var records := Execute(w, i, c.toolCalls);
      allToolCalls := allToolCalls + records;
      messages := messages + ToolMessages(records);
      last := last.(i := i + 1, messages := messages, records := allToolCalls,
                    batches := last.batches + [Batch(i, c.toolCalls, tracker.usage)]);
      i := i + 1;
    }
    return Response("", allToolCalls, tracker.usage, cfg.maxIterations, MaxIterations, w.modelName, cfg.providerName),
           Some(MaxIterationsReached), last;
  }

  // ---------------------------------------------------------------------
  // What every run keeps
  // ---------------------------------------------------------------------

  /** Groups of one assistant message with its calls and then exactly one tool
      message per call, in the order and with the IDs of the calls. */
  predicate Rounds(ms: seq<Message>)
    decreases |ms|
  {
    ms == [] || (OpensWithRound(ms) && Rounds(ms[1 + |ms[0].toolCalls|..]))
  }

  predicate OpensWithRound(ms: seq<Message>)
    requires ms != []
  {
    var calls := ms[0].toolCalls;
    && ms[0].role.Assistant? && calls != [] && |ms| >= 1 + |calls|
    && forall k | 0 < k <= |calls| :: ms[k].role.Tool? && ms[k].toolID == calls[k - 1].id
  }

  lemma {:induction false} RoundsAppend(a: seq<Message>, b: seq<Message>)
    requires Rounds(a) && Rounds(b)
    ensures Rounds(a + b)
    decreases |a|
  {
    if a == [] {
      assert a + b == b;
    } else {
      var n := 1 + |a[0].toolCalls|;
      RoundsAppend(a[n..], b);
      assert forall k | 0 <= k < n :: (a + b)[k] == a[k];
      assert OpensWithRound(a + b);
      assert (a + b)[n..] == a[n..] + b;
    }
  }

  predicate Extends(initial: seq<Message>, ms: seq<Message>) {
    initial <= ms && Rounds(ms[|initial|..])
  }

  lemma RoundExtends(w: World, initial: seq<Message>, st: LoopState, content: string, calls: seq<ToolCall>)
    requires Extends(initial, st.messages) && calls != []
    ensures Extends(initial,
                    st.messages + [AssistantMessage(content, calls)] + ToolMessages(ExecuteAll(w, st.i, calls)))
  {
    var round := [AssistantMessage(content, calls)] + ToolMessages(ExecuteAll(w, st.i, calls));
    var answers := ToolMessages(ExecuteAll(w, st.i, calls));
    assert forall k | 0 < k <= |calls| :: round[k] == answers[k - 1];
    assert OpensWithRound(round);
    assert round[1 + |calls|..] == [];
    RoundsAppend(st.messages[|initial|..], round);
    var after := st.messages + [AssistantMessage(content, calls)] + ToolMessages(ExecuteAll(w, st.i, calls));
    assert after[|initial|..] == st.messages[|initial|..] + round;
  }

  function AllCalls(batches: seq<Batch>): seq<ToolCall> {
    if batches == [] then [] else AllCalls(batches[..|batches| - 1]) + batches[|batches| - 1].calls
  }

  function SumUsage(answers: seq<Completion>): Usage {
    if answers == [] then NO_USAGE
    else AddUsage(SumUsage(answers[..|answers| - 1]), answers[|answers| - 1].usage)
  }

  lemma {:induction false} OccurrencesAppend(w: World, a: seq<ToolCall>, b: seq<ToolCall>, key: string)
    ensures Occurrences(w, a + b, key) == Occurrences(w, a, key) + Occurrences(w, b, key)
    decreases a
  {
    if a == [] {
      assert a + b == b;
    } else {
      assert (a + b)[1..] == a[1..] + b;
      OccurrencesAppend(w, a[1..], b, key);
    }
  }

  lemma AnswersAppend(r: seq<ToolRecord>, c: seq<ToolCall>, r': seq<ToolRecord>, c': seq<ToolCall>)
    requires Answers(r, c) && Answers(r', c')
    ensures Answers(r + r', c + c')
  {
  }

  // ----- what the logs say, from the answers alone -----

  /** One round: the answer and the results of its calls. */
  function Round(w: World, i: nat, c: Completion): seq<Message> {
    [AssistantMessage(c.content, c.toolCalls)] + ToolMessages(ExecuteAll(w, i, c.toolCalls))
  }

  /** The conversation after these answers. */
  function Talk(w: World, initial: seq<Message>, answers: seq<Completion>): seq<Message> {
    if answers == [] then initial
    else Talk(w, initial, answers[..|answers| - 1]) + Round(w, |answers| - 1, answers[|answers| - 1])
  }

  /** The tool records of these answers. */
  function Results(w: World, answers: seq<Completion>): seq<ToolRecord> {
    if answers == [] then []
    else
      Results(w, answers[..|answers| - 1]) + ExecuteAll(w, |answers| - 1, answers[|answers| - 1].toolCalls)
  }

  /** Every request is the conversation after the answers that came before it. */
  ghost predicate Asked(w: World, initial: seq<Message>, requests: seq<seq<Message>>, answers: seq<Completion>) {
    && |requests| <= |answers| + 1
    && forall k | 0 <= k < |requests| :: requests[k] == Talk(w, initial, answers[..k])
  }

  /** Every batch is the calls of its answer, with all usage up to and including
      that answer. */
  ghost predicate Logged(batches: seq<Batch>, answers: seq<Completion>) {
    && |batches| <= |answers|
    && forall k | 0 <= k < |batches| :: batches[k] == Batch(k, answers[k].toolCalls, SumUsage(answers[..k + 1]))
  }

  ghost predicate Recorded(w: World, records: seq<ToolRecord>, batches: seq<Batch>, answers: seq<Completion>) {
    |batches| <= |answers| && records == Results(w, answers[..|batches|])
  }

  lemma AskedAgain(w: World, initial: seq<Message>, requests: seq<seq<Message>>, answers: seq<Completion>)
    requires Asked(w, initial, requests, answers) && |requests| == |answers|
    ensures Asked(w, initial, requests + [Talk(w, initial, answers)], answers)
  {
    assert answers[..|answers|] == answers;
  }

  lemma TakeLess(answers: seq<Completion>, c: Completion, k: nat)
    requires k <= |answers|
    ensures (answers + [c])[..k] == answers[..k]
  {
  }

  lemma AskedAnswered(w: World, initial: seq<Message>, requests: seq<seq<Message>>, answers: seq<Completion>,
                      c: Completion)
    requires Asked(w, initial, requests, answers)
    ensures Asked(w, initial, requests, answers + [c])
  {
    forall k | 0 <= k < |requests| ensures requests[k] == Talk(w, initial, (answers + [c])[..k]) {
      TakeLess(answers, c, k);
    }
  }

  lemma LoggedAnswered(batches: seq<Batch>, answers: seq<Completion>, c: Completion)
    requires Logged(batches, answers)
    ensures Logged(batches, answers + [c])
  {
    forall k | 0 <= k < |batches|
      ensures batches[k] == Batch(k, (answers + [c])[k].toolCalls, SumUsage((answers + [c])[..k + 1]))
    {
      TakeLess(answers, c, k + 1);
    }
  }

  /** The last answer is logged once its tools have run. */
  lemma LoggedAgain(batches: seq<Batch>, answers: seq<Completion>)
    requires Logged(batches, answers) && |answers| == |batches| + 1
    ensures Logged(batches + [Batch(|batches|, answers[|batches|].toolCalls, SumUsage(answers))], answers)
  {
    assert answers[..|answers|] == answers;
  }

  lemma RecordedAgain(w: World, records: seq<ToolRecord>, batches: seq<Batch>, answers: seq<Completion>, b: Batch)
    requires Recorded(w, records, batches, answers) && |answers| == |batches| + 1
    ensures Recorded(w, records + ExecuteAll(w, |batches|, answers[|batches|].toolCalls), batches + [b], answers)
  {
    assert answers[..|batches| + 1] == answers;
  }

  /** One more answer adds its round to the talk and its usage to the sum. */
  lemma TalkAgain(w: World, initial: seq<Message>, answers: seq<Completion>, c: Completion)
    ensures Talk(w, initial, answers + [c]) == Talk(w, initial, answers) + Round(w, |answers|, c)
    ensures SumUsage(answers + [c]) == AddUsage(SumUsage(answers), c.usage)
  {
    TakeLess(answers, c, |answers|);
    assert answers[..|answers|] == answers;
  }

  /** What a reader of a run can rely on, at any point of it. The first three lines
      say what the logs hold, from the answers and the tools alone. */
  ghost predicate Lawful(cfg: LoopConfig, w: World, initial: seq<Message>, st: LoopState) {
    && Asked(w, initial, st.requests, st.answers)
    && Logged(st.batches, st.answers)
    && Recorded(w, st.records, st.batches, st.answers)
    // every request is whole rounds after the initial messages
    && (forall r | r in st.requests :: Extends(initial, r))
    // no tool runs on a spent budget, and no signature runs LoopThreshold times
    && (forall b | b in st.batches :: !Exceeded(cfg.tokenBudget, b.spent))
    && (forall key :: Occurrences(w, AllCalls(st.batches), key) < cfg.loopThreshold)
    // usage is the sum of all answers, and records answer the calls
    && st.usage == SumUsage(st.answers)
    && Answers(st.records, AllCalls(st.batches))
    && |st.batches| <= |st.answers| <= |st.requests| <= cfg.maxIterations
  }

  /** The detector has counted exactly the executed calls, all below the threshold. */
  ghost predicate Counted(cfg: LoopConfig, w: World, counts: map<string, nat>, batches: seq<Batch>) {
    && (forall key | key in counts :: counts[key] < cfg.loopThreshold)
    && (forall key :: CountOf(counts, key) == Occurrences(w, AllCalls(batches), key))
  }

  /** The loop invariant: each iteration so far was complete. */
  ghost predicate Steady(cfg: LoopConfig, w: World, initial: seq<Message>, st: LoopState) {
    && Lawful(cfg, w, initial, st)
    && Extends(initial, st.messages) && st.messages == Talk(w, initial, st.answers)
    && Counted(cfg, w, st.counts, st.batches)
    && |st.requests| == |st.answers| == |st.batches| == st.i
  }

  /** In the middle of an iteration: the answer has come, its tools have not run. */
  ghost predicate Answered(cfg: LoopConfig, w: World, initial: seq<Message>, st: LoopState, c: Completion) {
    && Lawful(cfg, w, initial, st)
    && Extends(initial, st.messages)
    && Counted(cfg, w, st.counts, st.batches)
    && |st.requests| == |st.answers| == st.i + 1 == |st.batches| + 1 && st.answers[st.i] == c
    && st.messages + Round(w, st.i, c) == Talk(w, initial, st.answers)
  }

  /** The end of a run reports what the run has done. */
  ghost predicate Reported(cfg: LoopConfig, w: World, initial: seq<Message>, e: Ended) {
    Lawful(cfg, w, initial, e.last) && e.resp.totalUsage == e.last.usage && e.resp.toolCalls == e.last.records
  }

  ghost predicate Kept(cfg: LoopConfig, w: World, initial: seq<Message>, p: Progress) {
    if p.Stop? then Reported(cfg, w, initial, p.ended) else Steady(cfg, w, initial, p.st)
  }

  lemma ToolsKeepCounted(cfg: LoopConfig, w: World, counts: map<string, nat>, batches: seq<Batch>, b: Batch)
    requires Counted(cfg, w, counts, batches) && cfg.loopThreshold > 0
    requires !RecordAll(w, cfg.loopThreshold, counts, b.calls).1
    ensures Counted(cfg, w, RecordAll(w, cfg.loopThreshold, counts, b.calls).0, batches + [b])
    ensures forall key :: Occurrences(w, AllCalls(batches + [b]), key) < cfg.loopThreshold
  {
    var counts' := RecordAll(w, cfg.loopThreshold, counts, b.calls).0;
    RecordAllCounts(w, cfg.loopThreshold, counts, b.calls);
    assert (batches + [b])[..|batches|] == batches;
    forall key
      ensures CountOf(counts', key) == Occurrences(w, AllCalls(batches + [b]), key) < cfg.loopThreshold
    {
      OccurrencesAppend(w, AllCalls(batches), b.calls, key);
    }
  }

  lemma ToolsKeepSteady(cfg: LoopConfig, w: World, initial: seq<Message>, st: LoopState, c: Completion)
    requires Answered(cfg, w, initial, st, c)
    requires !Exceeded(cfg.tokenBudget, st.usage) && c.toolCalls != [] && cfg.loopThreshold > 0
    requires !RecordAll(w, cfg.loopThreshold, st.counts, c.toolCalls).1
    ensures Steady(cfg, w, initial,
                   AfterTools(w, st, c.content, c.toolCalls, RecordAll(w, cfg.loopThreshold, st.counts, c.toolCalls).0))
  {
    var b := Batch(st.i, c.toolCalls, st.usage);
    RoundExtends(w, initial, st, c.content, c.toolCalls);
    ToolsKeepCounted(cfg, w, st.counts, st.batches, b);
    LoggedAgain(st.batches, st.answers);
    RecordedAgain(w, st.records, st.batches, st.answers, b);
    assert (st.batches + [b])[..|st.batches|] == st.batches;
    AnswersAppend(st.records, AllCalls(st.batches), ExecuteAll(w, st.i, c.toolCalls), c.toolCalls);
    Assoc(st.messages, [AssistantMessage(c.content, c.toolCalls)], ToolMessages(ExecuteAll(w, st.i, c.toolCalls)));
  }

  lemma AnswerKeepsLaws(cfg: LoopConfig, w: World, initial: seq<Message>, st: LoopState, c: Completion)
    requires Answered(cfg, w, initial, st, c) && cfg.loopThreshold > 0
    ensures Kept(cfg, w, initial, AfterAnswer(cfg, w, st, c))
  {
    if !Exceeded(cfg.tokenBudget, st.usage) && c.toolCalls != []
       && !RecordAll(w, cfg.loopThreshold, st.counts, c.toolCalls).1 {
      ToolsKeepSteady(cfg, w, initial, st, c);
    }
  }

  lemma SendingIsLawful(cfg: LoopConfig, w: World, initial: seq<Message>, st: LoopState)
    requires Steady(cfg, w, initial, st) && st.i < cfg.maxIterations
    ensures Lawful(cfg, w, initial, st.(requests := st.requests + [st.messages]))
  {
    AskedAgain(w, initial, st.requests, st.answers);
  }

  function AfterAnswering(st: LoopState, c: Completion): LoopState {
    st.(requests := st.requests + [st.messages], usage := AddUsage(st.usage, c.usage), answers := st.answers + [c])
  }

  lemma AnsweringIsLawful(cfg: LoopConfig, w: World, initial: seq<Message>, st: LoopState, c: Completion)
    requires Steady(cfg, w, initial, st) && st.i < cfg.maxIterations
    ensures Answered(cfg, w, initial, AfterAnswering(st, c), c)
  {
    SendingIsLawful(cfg, w, initial, st);
    AskedAnswered(w, initial, st.requests + [st.messages], st.answers, c);
    LoggedAnswered(st.batches, st.answers, c);
    TakeLess(st.answers, c, |st.batches|);
    TalkAgain(w, initial, st.answers, c);
  }

  lemma IterationKeepsLaws(cfg: LoopConfig, w: World, initial: seq<Message>, st: LoopState)
    requires Steady(cfg, w, initial, st) && st.i < cfg.maxIterations && cfg.loopThreshold > 0
    ensures Kept(cfg, w, initial, Iterate(cfg, w, st))
  {
    if w.ctxErr(st.i).None? {
      SendingIsLawful(cfg, w, initial, st);
      if w.complete(st.i, st.messages).Ok? {
        var c := w.complete(st.i, st.messages).value;
        AnsweringIsLawful(cfg, w, initial, st, c);
        AnswerKeepsLaws(cfg, w, initial, AfterAnswering(st, c), c);
      }
    }
  }

  lemma {:induction false} ReasonKeepsLaws(cfg: LoopConfig, w: World, initial: seq<Message>, st: LoopState)
    requires Steady(cfg, w, initial, st) && cfg.loopThreshold > 0
    ensures Reported(cfg, w, initial, Reason(cfg, w, st))
    decreases cfg.maxIterations - st.i
  {
    if st.i < cfg.maxIterations {
      IterationKeepsLaws(cfg, w, initial, st);
      match Iterate(cfg, w, st) {
        case Stop(_) =>
        case Continue(st') => ReasonKeepsLaws(cfg, w, initial, st');
      }
    }
  }

  lemma BeginIsSteady(cfg: LoopConfig, w: World, req: Request)
    requires cfg.loopThreshold > 0
    ensures Steady(cfg, w, InitialMessages(req), Begin(req))
  {
    var st := Begin(req);
    assert st.messages[|st.messages|..] == [];
  }

  /** The laws of every run of Run, whatever the provider answers and however
      tools fail or panic. */
  lemma RunIsLawful(cfg: LoopConfig, w: World, req: Request)
    requires cfg.loopThreshold > 0
    ensures var e := Reason(cfg, w, Begin(req));
      && Lawful(cfg, w, InitialMessages(req), e.last)
      && e.resp.totalUsage == SumUsage(e.last.answers)
      && e.resp.toolCalls == Results(w, e.last.answers[..|e.last.batches|])
  {
    BeginIsSteady(cfg, w, req);
    ReasonKeepsLaws(cfg, w, InitialMessages(req), Begin(req));
  }
}
