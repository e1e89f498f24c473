/** The streaming reasoning loop (internal/agent/loop.go, RunStream) and its
  relation to the synchronous one. */
module AgentStream {
  import opened Options
  import opened AgentTypes
  import opened AgentLoop
  import opened Messages
  import opened Sequences

  datatype StreamEvent =
    | TextEvent(text: string)
    | UsageEvent(usage: Usage)
    | ToolStart(call: ToolCall)
    | ToolEnd(rec: ToolRecord)
    | DoneEvent(final: Response)
    | ErrorEvent(err: Error)

  /** An emission that finds no receiver before the context ends is lost, and the
      producer gives up. */
  function EmitAll(w: World, events: seq<StreamEvent>, more: seq<StreamEvent>): (seq<StreamEvent>, bool)
    decreases more
  {
    if more == [] then (events, true)
    else if w.accepts(|events|) then EmitAll(w, events + [more[0]], more[1..])
    else (events, false)
  }

  function TextEventOf(c: Chunk): seq<StreamEvent> { if c.content == "" then [] else [TextEvent(c.content)] }

  datatype Fate = Drained | Broken(e: Error) | Unheard

  /** What reading one provider stream leaves behind. */
  datatype Consumed = Consumed(content: string, calls: seq<ToolCall>, usage: Option<Usage>,
                               events: seq<StreamEvent>, fate: Fate)

  function Consume(w: World, chunks: seq<Chunk>, acc: Consumed): Consumed
    decreases chunks
  {
    if chunks == [] || !acc.fate.Drained? then acc
    else Consume(w, chunks[1..], ConsumeOne(w, chunks[0], acc))
  }

  function ConsumeOne(w: World, c: Chunk, acc: Consumed): Consumed {
    if c.err.Some? then acc.(fate := Broken(c.err.value))
    else
      var (events, heard) := EmitAll(w, acc.events, TextEventOf(c));
      if !heard then acc.(content := acc.content + c.content, fate := Unheard)
      else acc.(content := acc.content + c.content, calls := acc.calls + c.toolCalls,
                usage := if c.usage.Some? then c.usage else acc.usage, events := events)
  }

  datatype Streaming = Going(st: LoopState, events: seq<StreamEvent>) | Over(st: LoopState, events: seq<StreamEvent>)

  function Starts(calls: seq<ToolCall>): seq<StreamEvent> {
    seq(|calls|, k requires 0 <= k < |calls| => ToolStart(calls[k]))
  }

  function Ends(records: seq<ToolRecord>): seq<StreamEvent> {
    seq(|records|, k requires 0 <= k < |records| => ToolEnd(records[k]))
  }

  function OverWith(w: World, st: LoopState, events: seq<StreamEvent>, e: StreamEvent): Streaming {
    Over(st, EmitAll(w, events, [e]).0)
  }

  /** The rest of an iteration of RunStream once a stream has been drained. */
  function AfterStream(cfg: LoopConfig, w: World, st: LoopState, c: Completion, events: seq<StreamEvent>)
    : (p: Streaming)
    ensures p.Going? ==> p.st.i == st.i + 1
  {
    if Exceeded(cfg.tokenBudget, st.usage) then OverWith(w, st, events, ErrorEvent(TokenBudgetExceeded))
    else if c.toolCalls == [] then
      OverWith(w, st, events, DoneEvent(Reply(cfg, w, st, c.content, st.i + 1, Complete)))
    else
      var (counts, hit) := RecordAll(w, cfg.loopThreshold, st.counts, c.toolCalls);
      if hit then OverWith(w, st.(counts := counts), events, ErrorEvent(LoopFound))
      else
        var (started, heard) := EmitAll(w, events, Starts(c.toolCalls));
        if !heard then Over(st.(counts := counts), started)
        else
          var st' := AfterTools(w, st, c.content, c.toolCalls, counts);
          var (ended, heard') := EmitAll(w, started, Ends(ExecuteAll(w, st.i, c.toolCalls)));
          if !heard' then Over(st', ended) else Going(st', ended)
  }

  function StreamIterate(cfg: LoopConfig, w: World, st: LoopState, events: seq<StreamEvent>): (p: Streaming)
    ensures p.Going? ==> p.st.i == st.i + 1
  {
    match w.ctxErr(st.i)
    case Some(e) => OverWith(w, st, events, ErrorEvent(e))
    case None =>
      var sent := st.(requests := st.requests + [st.messages]);
      match w.stream(st.i, st.messages)
      case Err(e) => OverWith(w, sent, events, ErrorEvent(e))
      case Ok(chunks) =>
        var got := Consume(w, chunks, Consumed("", [], None, events, Drained));
        match got.fate
        case Unheard => Over(sent, got.events)
        case Broken(e) => OverWith(w, sent, got.events, ErrorEvent(e))
        case Drained =>
          var c := Completion(got.content, got.calls, got.usage.GetOr(NO_USAGE));
          var st' := sent.(usage := AddUsage(st.usage, c.usage), answers := st.answers + [c]);
          var (events', heard) := EmitAll(w, got.events, if got.usage.Some? then [UsageEvent(got.usage.value)] else []);
          if !heard then Over(st', events') else AfterStream(cfg, w, st', c, events')
  }

  /** The streaming loop from a given state on: the events it has emitted when it
      closes the channel, and the state in which it stopped. */
  function StreamReason(cfg: LoopConfig, w: World, st: LoopState, events: seq<StreamEvent>): Streaming
    decreases cfg.maxIterations - st.i
  {
    if st.i >= cfg.maxIterations then OverWith(w, st, events, ErrorEvent(MaxIterationsReached))
    else
      match StreamIterate(cfg, w, st, events)
      case Over(st', events') => Over(st', events')
      case Going(st', events') => StreamReason(cfg, w, st', events')
  }

  // ---------------------------------------------------------------------
  // The code
  // ---------------------------------------------------------------------

  class EventChannel {
    var events: seq<StreamEvent>

    constructor ()
      ensures events == []
    {
      events := [];
    }

    method Emit(w: World, e: StreamEvent) returns (heard: bool)
      modifies this
      ensures (events, heard) == EmitAll(w, old(events), [e])
    {
      heard := w.accepts(|events|);
      if heard {
        events := events + [e];
      }
    }

    method EmitEach(w: World, more: seq<StreamEvent>) returns (heard: bool)
      modifies this
      ensures (events, heard) == EmitAll(w, old(events), more)
    {
      var n := 0;
      while n < |more|
        invariant 0 <= n <= |more|
        invariant EmitAll(w, events, more[n..]) == EmitAll(w, old(events), more)
      {
        heard := Emit(w, more[n]);
        assert more[n..][1..] == more[n + 1..];
        if !heard {
          return;
        }
        n := n + 1;
      }
      heard := true;
    }
  }

  /** The chunk loop of RunStream. */
  method ReadStream(w: World, ch: EventChannel, chunks: seq<Chunk>) returns (got: Consumed)
    modifies ch
    ensures got == Consume(w, chunks, Consumed("", [], None, old(ch.events), Drained)) && ch.events == got.events
  {
    var content: string := "";
    var toolCalls: seq<ToolCall> := [];
    var usage: Option<Usage> := None;
    var n := 0;
    ghost var start := Consumed("", [], None, ch.events, Drained);
    while n < |chunks|
      invariant 0 <= n <= |chunks|
      invariant Consume(w, chunks[n..], Consumed(content, toolCalls, usage, ch.events, Drained))
             == Consume(w, chunks, start)
    {
      var chunk := chunks[n];
      assert chunks[n..][0] == chunk && chunks[n..][1..] == chunks[n + 1..];
      ghost var before := Consumed(content, toolCalls, usage, ch.events, Drained);
      if chunk.err.Some? {
        return Consumed(content, toolCalls, usage, ch.events, Broken(chunk.err.value));
      }
      if chunk.content != "" {
        content := content + chunk.content;
        var heard := ch.Emit(w, TextEvent(chunk.content));
        if !heard {
          return Consumed(content, toolCalls, usage, ch.events, Unheard);
        }
      }
      toolCalls := toolCalls + chunk.toolCalls;
      if chunk.usage.Some? {
        usage := chunk.usage;
      }
      assert Consumed(content, toolCalls, usage, ch.events, Drained) == ConsumeOne(w, chunk, before) by {
        assert chunk.content == "" ==> before.content + chunk.content == before.content;
      }
      n := n + 1;
    }
    got := Consumed(content, toolCalls, usage, ch.events, Drained);
  }

  /** The second half of the loop body of RunStream, after the stream was drained. */
  method FinishIteration(cfg: LoopConfig, w: World, ch: EventChannel, detector: LoopDetector, tracker: TokenTracker,
                         i: nat, messages: seq<Message>, records: seq<ToolRecord>, ghost st: LoopState,
                         content: string, toolCalls: seq<ToolCall>)
    returns (over: bool, messages': seq<Message>, records': seq<ToolRecord>, ghost st': LoopState)
    requires detector.threshold == cfg.loopThreshold && tracker.budget == cfg.tokenBudget
    requires detector.counts == st.counts && tracker.usage == st.usage
    requires i == st.i && messages == st.messages && records == st.records
    modifies ch, detector`counts
    ensures AfterStream(cfg, w, st, Completion(content, toolCalls, NO_USAGE), old(ch.events))
         == if over then Over(st', ch.events) else Going(st', ch.events)
    ensures detector.counts == st'.counts
    ensures !over ==> messages' == st'.messages && records' == st'.records
  {
    over, messages', records', st' := true, messages, records, st;
    if Exceeded(tracker.budget, tracker.usage) {
      var _ := ch.Emit(w, ErrorEvent(TokenBudgetExceeded));
      return;
    }
    if toolCalls == [] {
      var final := Response(content, records, tracker.usage, i + 1, Complete, w.modelName, cfg.providerName);
      var _ := ch.Emit(w, DoneEvent(final));
      return;
    }
    var hit := detector.RecordCalls(w, toolCalls);
    st' := st.(counts := detector.counts);
    if hit {
      var _ := ch.Emit(w, ErrorEvent(LoopFound));
      return;
    }
    messages' := messages + [AssistantMessage(content, toolCalls)];
    var heard := ch.EmitEach(w, Starts(toolCalls));
    if !heard {
      return;
    }
    var results := Execute(w, i, toolCalls);
    records' := records + results;
    st' := AfterTools(w, st, content, toolCalls, detector.counts);
    heard := ch.EmitEach(w, Ends(results));
    if !heard {
      return;
    }
    over, messages' := false, messages' + ToolMessages(results);
  }

  /** One pass through the loop body of RunStream. */
  method IterateStream(cfg: LoopConfig, w: World, ch: EventChannel, detector: LoopDetector, tracker: TokenTracker,
                       i: nat, messages: seq<Message>, records: seq<ToolRecord>, ghost st: LoopState)
    returns (over: bool, messages': seq<Message>, records': seq<ToolRecord>, ghost st': LoopState)
    requires detector.threshold == cfg.loopThreshold && tracker.budget == cfg.tokenBudget
    requires detector.counts == st.counts && tracker.usage == st.usage
    requires i == st.i && messages == st.messages && records == st.records
    modifies ch, detector`counts, tracker`usage
    ensures StreamIterate(cfg, w, st, old(ch.events)) == if over then Over(st', ch.events) else Going(st', ch.events)
    ensures detector.counts == st'.counts && tracker.usage == st'.usage
    ensures !over ==> messages' == st'.messages && records' == st'.records
  {
    over, messages', records', st' := true, messages, records, st;
    var ctxErr := w.ctxErr(i);
    if ctxErr.Some? {
      var _ := ch.Emit(w, ErrorEvent(ctxErr.value));
      return;
    }
    var reply := w.stream(i, messages);
    st' := st.(requests := st.requests + [messages]);
    if reply.Err? {
      var _ := ch.Emit(w, ErrorEvent(reply.error));
      return;
    }
    var got := ReadStream(w, ch, reply.value);
    if got.fate.Unheard? {
      return;
    }
    if got.fate.Broken? {
      var _ := ch.Emit(w, ErrorEvent(got.fate.e));
      return;
    }
    ghost var c := Completion(got.content, got.calls, got.usage.GetOr(NO_USAGE));
    st' := st'.(usage := AddUsage(st.usage, c.usage), answers := st.answers + [c]);
    if got.usage.Some? {
      tracker.Add(got.usage.value);
      var heard := ch.Emit(w, UsageEvent(got.usage.value));
      if !heard {
        return;
      }
    }
    over, messages', records', st' :=
      FinishIteration(cfg, w, ch, detector, tracker, i, messages, records, st', got.content, got.calls);
  }

  /** RunStream, statement by statement. */
  method RunStream(cfg: LoopConfig, w: World, req: Request, ch: EventChannel)
    returns (ghost last: LoopState)
    requires ch.events == []
    modifies ch
    ensures StreamReason(cfg, w, Begin(req), []) == Over(last, ch.events)
  {
    var detector := new LoopDetector(cfg.loopThreshold);
    var tracker := new TokenTracker(cfg.tokenBudget);
    var messages := InitialMessages(req);
    var allToolCalls: seq<ToolRecord> := [];
    var i := 0;
    last := Begin(req);
    while i < cfg.maxIterations
      invariant i <= cfg.maxIterations
      invariant last.i == i && last.messages == messages && last.records == allToolCalls
      invariant last.usage == tracker.usage && last.counts == detector.counts
      invariant StreamReason(cfg, w, last, ch.events) == StreamReason(cfg, w, Begin(req), [])
    {
      var over: bool;
      over, messages, allToolCalls, last :=
        IterateStream(cfg, w, ch, detector, tracker, i, messages, allToolCalls, last);
      if over {
        return;
      }
      i := i + 1;
    }
    var _ := ch.Emit(w, ErrorEvent(MaxIterationsReached));
  }

  // ---------------------------------------------------------------------
  // The laws of every streaming run
  // ---------------------------------------------------------------------

  ghost predicate StreamKept(cfg: LoopConfig, w: World, initial: seq<Message>, p: Streaming) {
    if p.Over? then Lawful(cfg, w, initial, p.st) else Steady(cfg, w, initial, p.st)
  }

  /** Both loops leave the same state behind after an answer, except that a listener
      who leaves can stop the streaming one before its tools run. */
  lemma SameStateAfter(cfg: LoopConfig, w: World, st: LoopState, c: Completion, events: seq<StreamEvent>)
    ensures var p, s := AfterAnswer(cfg, w, st, c), AfterStream(cfg, w, st, c, events);
      && (s.Going? ==> p == Continue(s.st))
      && (p == Continue(s.st) || s.st == st.(counts := s.st.counts))
  {
  }

  lemma AfterStreamKeepsLaws(cfg: LoopConfig, w: World, initial: seq<Message>, st: LoopState, c: Completion,
                             events: seq<StreamEvent>)
    requires Lawful(cfg, w, initial, st) && Kept(cfg, w, initial, AfterAnswer(cfg, w, st, c))
    ensures StreamKept(cfg, w, initial, AfterStream(cfg, w, st, c, events))
  {
    SameStateAfter(cfg, w, st, c, events);
  }

  lemma StreamIterationKeepsLaws(cfg: LoopConfig, w: World, initial: seq<Message>, st: LoopState,
                                 events: seq<StreamEvent>)
    requires Steady(cfg, w, initial, st) && st.i < cfg.maxIterations && cfg.loopThreshold > 0
    ensures StreamKept(cfg, w, initial, StreamIterate(cfg, w, st, events))
  {
    if w.ctxErr(st.i).None? {
      SendingIsLawful(cfg, w, initial, st);
      if w.stream(st.i, st.messages).Ok? {
        var got := Consume(w, w.stream(st.i, st.messages).value, Consumed("", [], None, events, Drained));
        if got.fate.Drained? {
          var c := Completion(got.content, got.calls, got.usage.GetOr(NO_USAGE));
          AnsweringIsLawful(cfg, w, initial, st, c);
          AnswerKeepsLaws(cfg, w, initial, AfterAnswering(st, c), c);
          var more := if got.usage.Some? then [UsageEvent(got.usage.value)] else [];
          AfterStreamKeepsLaws(cfg, w, initial, AfterAnswering(st, c), c, EmitAll(w, got.events, more).0);
        }
      }
    }
  }

  lemma {:induction false} StreamReasonKeepsLaws(cfg: LoopConfig, w: World, initial: seq<Message>, st: LoopState,
                                                 events: seq<StreamEvent>)
    requires Steady(cfg, w, initial, st) && cfg.loopThreshold > 0
    ensures Lawful(cfg, w, initial, StreamReason(cfg, w, st, events).st)
    decreases cfg.maxIterations - st.i
  {
    if st.i < cfg.maxIterations {
      StreamIterationKeepsLaws(cfg, w, initial, st, events);
      match StreamIterate(cfg, w, st, events) {
        case Over(_, _) =>
        case Going(st', events') => StreamReasonKeepsLaws(cfg, w, initial, st', events');
      }
    }
  }

  /** The laws of every run of RunStream, also when the context ends in the
      middle or nobody listens. */
  lemma StreamIsLawful(cfg: LoopConfig, w: World, req: Request)
    requires cfg.loopThreshold > 0
    ensures Lawful(cfg, w, InitialMessages(req), StreamReason(cfg, w, Begin(req), []).st)
  {
    BeginIsSteady(cfg, w, req);
    StreamReasonKeepsLaws(cfg, w, InitialMessages(req), Begin(req), []);
  }

  // ---------------------------------------------------------------------
  // Streaming refines the synchronous loop
  // ---------------------------------------------------------------------

  /** What a list of chunks folds to. */
  function FirstError(chunks: seq<Chunk>): Option<Error> {
    if chunks == [] then None else if chunks[0].err.Some? then chunks[0].err else FirstError(chunks[1..])
  }

  function TextOf(chunks: seq<Chunk>): string {
    if chunks == [] then "" else chunks[0].content + TextOf(chunks[1..])
  }

  function CallsOf(chunks: seq<Chunk>): seq<ToolCall> {
    if chunks == [] then [] else chunks[0].toolCalls + CallsOf(chunks[1..])
  }

  function LastUsage(chunks: seq<Chunk>): Option<Usage> {
    if chunks == [] then None
    else
      var later := LastUsage(chunks[1..]);
      if later.Some? then later else chunks[0].usage
  }

  /** The stream delivers the same answer, or fails with the same error. */
  predicate Matches(c: Result<Completion, Error>, s: Result<seq<Chunk>, Error>) {
    match s
    case Err(e) => c == Err(e)
    case Ok(chunks) =>
      match FirstError(chunks)
      case Some(e) => c == Err(e)
      case None => c == Ok(Completion(TextOf(chunks), CallsOf(chunks), LastUsage(chunks).GetOr(NO_USAGE)))
  }

  ghost predicate Undisturbed(w: World) {
    && (forall n :: w.accepts(n))
    && (forall i :: w.ctxErr(i).None?)
    && (forall i, ms :: Matches(w.complete(i, ms), w.stream(i, ms)))
  }

  lemma {:induction false} AllHeard(w: World, events: seq<StreamEvent>, more: seq<StreamEvent>)
    requires forall n :: w.accepts(n)
    ensures EmitAll(w, events, more) == (events + more, true)
    decreases more
  {
    if more == [] {
      assert events + more == events;
    } else {
      AllHeard(w, events + [more[0]], more[1..]);
      assert events + more == events + [more[0]] + more[1..];
    }
  }

  function TextEvents(chunks: seq<Chunk>): seq<StreamEvent> {
    if chunks == [] then []
    else TextEventOf(chunks[0]) + TextEvents(chunks[1..])
  }

  /** What a drained stream leaves, from its chunks alone. */
  function Folded(chunks: seq<Chunk>, acc: Consumed): Consumed {
    var later := LastUsage(chunks);
    Consumed(acc.content + TextOf(chunks), acc.calls + CallsOf(chunks),
             if later.Some? then later else acc.usage, acc.events + TextEvents(chunks), Drained)
  }

  function AfterChunk(c: Chunk, acc: Consumed): Consumed {
    Consumed(acc.content + c.content, acc.calls + c.toolCalls,
             if c.usage.Some? then c.usage else acc.usage, acc.events + TextEventOf(c), Drained)
  }

  lemma FoldedStep(chunks: seq<Chunk>, acc: Consumed)
    requires chunks != []
    ensures Folded(chunks[1..], AfterChunk(chunks[0], acc)) == Folded(chunks, acc)
  {
    var c, rest := chunks[0], chunks[1..];
    Assoc(acc.content, c.content, TextOf(rest));
    Assoc(acc.calls, c.toolCalls, CallsOf(rest));
    Assoc(acc.events, TextEventOf(c), TextEvents(rest));
  }

  lemma FoldedNothing(acc: Consumed)
    requires acc.fate.Drained?
    ensures Folded([], acc) == acc
  {
    assert acc.content + TextOf([]) == acc.content && acc.calls + CallsOf([]) == acc.calls;
    assert acc.events + TextEvents([]) == acc.events;
  }

  lemma ConsumeOneHeard(w: World, c: Chunk, acc: Consumed)
    requires (forall n :: w.accepts(n)) && acc.fate.Drained? && c.err.None?
    ensures ConsumeOne(w, c, acc) == AfterChunk(c, acc)
  {
    AllHeard(w, acc.events, TextEventOf(c));
  }

  /** Reading a stream to its end folds it; a chunk with an error breaks it. */
  lemma {:induction false} ConsumeFolds(w: World, chunks: seq<Chunk>, acc: Consumed)
    requires forall n :: w.accepts(n)
    requires acc.fate.Drained?
    ensures FirstError(chunks).Some? ==> Consume(w, chunks, acc).fate == Broken(FirstError(chunks).value)
    ensures FirstError(chunks).None? ==> Consume(w, chunks, acc) == Folded(chunks, acc)
    decreases chunks
  {
    if chunks == [] {
      FoldedNothing(acc);
    } else if chunks[0].err.None? {
      ConsumeOneHeard(w, chunks[0], acc);
      ConsumeFolds(w, chunks[1..], AfterChunk(chunks[0], acc));
      FoldedStep(chunks, acc);
    }
  }

  /** The records that the stream has announced as finished. */
  function ToolEnds(events: seq<StreamEvent>): seq<ToolRecord> {
    if events == [] then []
    else
      var e := events[|events| - 1];
      ToolEnds(events[..|events| - 1]) + (if e.ToolEnd? then [e.rec] else [])
  }

  lemma {:induction false} ToolEndsAppend(a: seq<StreamEvent>, b: seq<StreamEvent>)
    ensures ToolEnds(a + b) == ToolEnds(a) + ToolEnds(b)
    decreases b
  {
    if b == [] {
      assert a + b == a;
    } else {
      ToolEndsAppend(a, b[..|b| - 1]);
      assert (a + b)[..|a + b| - 1] == a + b[..|b| - 1];
    }
  }

  lemma {:induction false} ToolEndsOfEnds(records: seq<ToolRecord>)
    ensures ToolEnds(Ends(records)) == records
    decreases records
  {
    if records != [] {
      var init := records[..|records| - 1];
      ToolEndsOfEnds(init);
      assert Ends(records)[..|records| - 1] == Ends(init);
    }
  }

  /** Events that neither finish a tool nor end the run. */
  ghost predicate Chatter(events: seq<StreamEvent>) {
    forall k | 0 <= k < |events| :: events[k].TextEvent? || events[k].UsageEvent? || events[k].ToolStart?
  }

  lemma {:induction false} ToolEndsOfChatter(events: seq<StreamEvent>)
    requires Chatter(events)
    ensures ToolEnds(events) == []
    decreases events
  {
    if events != [] {
      ToolEndsOfChatter(events[..|events| - 1]);
    }
  }

  lemma {:induction false} TextEventsAreChatter(chunks: seq<Chunk>)
    ensures Chatter(TextEvents(chunks))
    decreases chunks
  {
    if chunks != [] {
      TextEventsAreChatter(chunks[1..]);
    }
  }

  /** No event so far has ended the run. */
  ghost predicate Open(events: seq<StreamEvent>) {
    forall k | 0 <= k < |events| :: !events[k].DoneEvent? && !events[k].ErrorEvent?
  }

  /** The stream is open and has announced exactly the finished tool calls. */
  ghost predicate Told(records: seq<ToolRecord>, events: seq<StreamEvent>) {
    Open(events) && ToolEnds(events) == records
  }

  /** The last event that a run announces its end with. */
  function Closing(e: Ended): StreamEvent {
    match e.err
    case None => DoneEvent(e.resp)
    case Some(err) => ErrorEvent(err)
  }

  /** The events of a run that ended so: one closing event, at the end, and all
      tool results before it. */
  ghost predicate Closed(e: Ended, events: seq<StreamEvent>) {
    && events != [] && events[|events| - 1] == Closing(e)
    && Told(e.resp.toolCalls, events[..|events| - 1])
  }

  ghost predicate SameStory(p: Progress, s: Streaming) {
    match p
    case Stop(e) => s.Over? && s.st == e.last && Closed(e, s.events)
    case Continue(st') => s.Going? && s.st == st' && Told(st'.records, s.events)
  }

  lemma TellMore(records: seq<ToolRecord>, events: seq<StreamEvent>, more: seq<StreamEvent>)
    requires Told(records, events) && Chatter(more)
    ensures Told(records, events + more)
  {
    ToolEndsAppend(events, more);
    ToolEndsOfChatter(more);
  }

  lemma TellEnds(records: seq<ToolRecord>, events: seq<StreamEvent>, done: seq<ToolRecord>)
    requires Told(records, events)
    ensures Told(records + done, events + Ends(done))
  {
    ToolEndsAppend(events, Ends(done));
    ToolEndsOfEnds(done);
  }

  lemma CloseWith(w: World, e: Ended, events: seq<StreamEvent>)
    requires (forall n :: w.accepts(n)) && Told(e.resp.toolCalls, events)
    ensures Closed(e, EmitAll(w, events, [Closing(e)]).0)
  {
    AllHeard(w, events, [Closing(e)]);
    assert (events + [Closing(e)])[..|events|] == events;
  }

  lemma AnswersAgree(cfg: LoopConfig, w: World, st: LoopState, c: Completion, events: seq<StreamEvent>)
    requires (forall n :: w.accepts(n)) && Told(st.records, events)
    ensures SameStory(AfterAnswer(cfg, w, st, c), AfterStream(cfg, w, st, c, events))
  {
    match AfterAnswer(cfg, w, st, c) {
      case Stop(e) => CloseWith(w, e, events);
      case Continue(st') =>
        var starts, records := Starts(c.toolCalls), ExecuteAll(w, st.i, c.toolCalls);
        AllHeard(w, events, starts);
        TellMore(st.records, events, starts);
        AllHeard(w, events + starts, Ends(records));
        TellEnds(st.records, events + starts, records);
    }
  }

  /** A failing stream closes like a failing call, also after some text. */
  lemma FailuresAgree(cfg: LoopConfig, w: World, st: LoopState, events: seq<StreamEvent>, e: Error,
                      got: seq<StreamEvent>)
    requires (forall n :: w.accepts(n)) && Told(st.records, events)
    requires w.ctxErr(st.i).None? && w.complete(st.i, st.messages) == Err(e)
    requires Told(st.records, got)
    ensures Iterate(cfg, w, st).Stop?
    ensures Closed(Iterate(cfg, w, st).ended, OverWith(w, st, got, ErrorEvent(e)).events)
  {
    CloseWith(w, Iterate(cfg, w, st).ended, got);
  }

  lemma {:induction false} BrokenStreamsChatter(w: World, chunks: seq<Chunk>, records: seq<ToolRecord>, acc: Consumed)
    requires (forall n :: w.accepts(n)) && Told(records, acc.events)
    ensures Told(records, Consume(w, chunks, acc).events)
    decreases chunks
  {
    if chunks != [] && acc.fate.Drained? {
      var more := TextEventOf(chunks[0]);
      AllHeard(w, acc.events, more);
      TellMore(records, acc.events, more);
      BrokenStreamsChatter(w, chunks[1..], records, ConsumeOne(w, chunks[0], acc));
    }
  }

  lemma IterationsAgree(cfg: LoopConfig, w: World, st: LoopState, events: seq<StreamEvent>)
    requires Undisturbed(w) && Told(st.records, events)
    ensures SameStory(Iterate(cfg, w, st), StreamIterate(cfg, w, st, events))
  {
    assert w.ctxErr(st.i).None?;
    assert Matches(w.complete(st.i, st.messages), w.stream(st.i, st.messages));
    match w.stream(st.i, st.messages)
    case Err(e) => FailuresAgree(cfg, w, st, events, e, events);
    case Ok(chunks) =>
      var acc := Consumed("", [], None, events, Drained);
      var got := Consume(w, chunks, acc);
      ConsumeFolds(w, chunks, acc);
      BrokenStreamsChatter(w, chunks, st.records, acc);
      match FirstError(chunks)
      case Some(e) => FailuresAgree(cfg, w, st, events, e, got.events);
      case None =>
        var c := Completion(TextOf(chunks), CallsOf(chunks), LastUsage(chunks).GetOr(NO_USAGE));
        assert got.content == c.content && got.calls == c.toolCalls && got.usage.GetOr(NO_USAGE) == c.usage;
        var more := if got.usage.Some? then [UsageEvent(got.usage.value)] else [];
        AllHeard(w, got.events, more);
        TellMore(st.records, got.events, more);
        var st' := st.(requests := st.requests + [st.messages], usage := AddUsage(st.usage, c.usage),
                       answers := st.answers + [c]);
        AnswersAgree(cfg, w, st', c, got.events + more);
  }

  /** The stream is over in the state in which the synchronous loop ended, and its
      events say how that ended. */
  ghost predicate Refines(s: Streaming, run: Ended) {
    s.Over? && s.st == run.last && Closed(run, s.events)
  }

  lemma {:induction false} LoopsAgree(cfg: LoopConfig, w: World, st: LoopState, events: seq<StreamEvent>)
    requires Undisturbed(w) && Told(st.records, events)
    ensures Refines(StreamReason(cfg, w, st, events), Reason(cfg, w, st))
    decreases cfg.maxIterations - st.i
  {
    if st.i >= cfg.maxIterations {
      CloseWith(w, Reason(cfg, w, st), events);
    } else {
      IterationsAgree(cfg, w, st, events);
      match StreamIterate(cfg, w, st, events) {
        case Over(_, _) =>
        case Going(st', events') => LoopsAgree(cfg, w, st', events');
      }
    }
  }

  /** Streaming refines the synchronous loop: when every stream folds to the
      completion that the provider would have returned and the context is never
      cancelled, RunStream goes through the same states, sends the same requests,
      announces exactly the tool results of the response, and closes with one
      event carrying the response or the error of Run. */
  lemma StreamRefinesRun(cfg: LoopConfig, w: World, req: Request)
    requires Undisturbed(w)
    ensures Refines(StreamReason(cfg, w, Begin(req), []), Reason(cfg, w, Begin(req)))
  {
    LoopsAgree(cfg, w, Begin(req), []);
  }
}
