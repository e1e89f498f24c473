/** The chunk loop of the OpenAI-compatible provider
  (modules/provider/openai_compatible/stream.go, parseSSEStream), and what its
  chunks fold to in the streaming reasoning loop. */
module SseStream {
  import opened Options
  import AgentLoop
  import opened AgentTypes
  import opened AgentStream
  import opened Messages
  import opened Reassembly
  import opened Sequences

  /** A scanned line: not a data line, the end marker, data that does not decode,
      or a decoded chunk (its finish reason only decides whether it is passed on). */
  datatype Line = Other | DoneMark | Garbled(e: Error)
    | Data(content: string, deltas: seq<Delta>, usage: Option<Usage>, finished: bool)

  /** What the loop does not control: the context before each line and at the end,
      whether each send finds a receiver, and how the scanner ends. */
  datatype Wire = Wire(ctxErr: nat -> Option<Error>, accepts: nat -> bool, scanErr: Option<Error>)

  function Send(w: Wire, out: seq<Chunk>, c: Chunk): (seq<Chunk>, bool) {
    if w.accepts(|out|) then (out + [c], true) else (out, false)
  }

  function CallsChunk(tcs: seq<ToolCall>): Chunk { Chunk("", tcs, None, None) }

  function ErrChunk(e: Error): Chunk { Chunk("", [], None, Some(e)) }

  /** A bound beyond all indexes of a map of calls. */
  ghost function Bound(m: Calls): (n: nat)
    ensures Beyond(m, n)
  {
    BoundExists(m);
    var n: nat :| Beyond(m, n); n
  }

  lemma {:induction false} BoundExists(m: Calls)
    ensures exists n: nat :: Beyond(m, n)
    decreases |m|
  {
    if i :| i in m {
      BoundExists(m - {i});
      var n: nat :| Beyond(m - {i}, n);
      var n': nat := if i >= n then i + 1 else n;
      forall j | j in m ensures j < n' {
        assert j == i || j in m - {i};
      }
      assert Beyond(m, n');
    } else {
      assert Beyond(m, 0);
    }
  }

  ghost function Sorted(m: Calls): seq<ToolCall> { InOrder(m, Bound(m)) }

  ghost function SendCalls(w: Wire, out: seq<Chunk>, m: Calls): (seq<Chunk>, bool) {
    if Sorted(m) == [] then (out, true) else Send(w, out, CallsChunk(Sorted(m)))
  }

  /** The chunks of a stream from line n on. */
  ghost function Parse(w: Wire, lines: seq<Line>, n: nat, m: Calls, out: seq<Chunk>): seq<Chunk>
    requires n <= |lines|
    decreases |lines| - n
  {
    if n == |lines| then
      var (out', sent) := SendCalls(w, out, m);
      if !sent || w.scanErr.None? then out'
      else Send(w, out', ErrChunk(w.ctxErr(n).GetOr(w.scanErr.value))).0
    else if w.ctxErr(n).Some? then Send(w, out, ErrChunk(w.ctxErr(n).value)).0
    else
      match lines[n]
      case Other => Parse(w, lines, n + 1, m, out)
      case DoneMark => SendCalls(w, out, m).0
      case Garbled(e) => Send(w, out, ErrChunk(e)).0
      case Data(content, deltas, usage, finished) =>
        if content == "" && !finished && usage.None? then Parse(w, lines, n + 1, AddAll(m, deltas), out)
        else
          var (out', sent) := Send(w, out, Chunk(content, [], usage, None));
          if !sent then out' else Parse(w, lines, n + 1, AddAll(m, deltas), out')
  }

  // ---------------------------------------------------------------------
  // The code
  // ---------------------------------------------------------------------

  class ChunkChannel {
    var chunks: seq<Chunk>

    constructor ()
      ensures chunks == []
    {
      chunks := [];
    }

    method Put(w: Wire, c: Chunk) returns (sent: bool)
      modifies this
      ensures (chunks, sent) == Send(w, old(chunks), c)
    {
      sent := w.accepts(|chunks|);
      if sent {
        chunks := chunks + [c];
      }
    }
  }

  method PutCalls(w: Wire, ch: ChunkChannel, tools: ToolAccumulator) returns (sent: bool)
    modifies ch
    ensures (ch.chunks, sent) == SendCalls(w, old(ch.chunks), tools.calls)
  {
    var tcs := tools.Result();
    assert tcs == Sorted(tools.calls);
    if |tcs| > 0 {
      sent := ch.Put(w, CallsChunk(tcs));
    } else {
      sent := true;
    }
  }

  /** parseSSEStream. */
  method ParseSSEStream(w: Wire, lines: seq<Line>, ch: ChunkChannel)
    requires ch.chunks == []
    modifies ch
    ensures ch.chunks == Parse(w, lines, 0, map[], [])
  {
    var tools := new ToolAccumulator();
    for n := 0 to |lines|
      invariant Parse(w, lines, n, tools.calls, ch.chunks) == Parse(w, lines, 0, map[], [])
    {
      var ctxErr := w.ctxErr(n);
      if ctxErr.Some? {
        var _ := ch.Put(w, ErrChunk(ctxErr.value));
        return;
      }
      match lines[n]
      case Other =>
      case DoneMark =>
        var _ := PutCalls(w, ch, tools);
        return;
      case Garbled(e) =>
        var _ := ch.Put(w, ErrChunk(e));
        return;
      case Data(content, deltas, usage, finished) =>
        tools.AddEach(deltas);
        if content != "" || finished || usage.Some? {
          var sent := ch.Put(w, Chunk(content, [], usage, None));
          if !sent {
            return;
          }
        }
    }
    var sent := PutCalls(w, ch, tools);
    if !sent {
      return;
    }
    if w.scanErr.Some? {
      var ctxErr := w.ctxErr(|lines|);
      var _ := ch.Put(w, ErrChunk(ctxErr.GetOr(w.scanErr.value)));
    }
  }

  // ---------------------------------------------------------------------
  // What the chunks fold to
  // ---------------------------------------------------------------------

  /** The lines that count: up to the end marker or the first that does not decode. */
  function Body(lines: seq<Line>): seq<Line> {
    if lines == [] || lines[0].DoneMark? || lines[0].Garbled? then [] else [lines[0]] + Body(lines[1..])
  }

  function Fault(lines: seq<Line>, scanErr: Option<Error>): Option<Error> {
    if lines == [] then scanErr
    else if lines[0].DoneMark? then None
    else if lines[0].Garbled? then Some(lines[0].e)
    else Fault(lines[1..], scanErr)
  }

  function ContentOf(lines: seq<Line>): string {
    if lines == [] then "" else (if lines[0].Data? then lines[0].content else "") + ContentOf(lines[1..])
  }

  function DeltasOf(lines: seq<Line>): seq<Delta> {
    if lines == [] then [] else (if lines[0].Data? then lines[0].deltas else []) + DeltasOf(lines[1..])
  }

  function UsageOf(lines: seq<Line>): Option<Usage> {
    if lines == [] then None
    else
      var later := UsageOf(lines[1..]);
      if later.Some? then later else if lines[0].Data? then lines[0].usage else None
  }

  ghost predicate Open(w: Wire) { (forall n :: w.accepts(n)) && forall n :: w.ctxErr(n).None? }

  /** The chunks that a stream still adds. */
  ghost function Tail(scanErr: Option<Error>, lines: seq<Line>, m: Calls): seq<Chunk>
    decreases |lines|
  {
    if lines == [] then
      (if Sorted(m) == [] then [] else [CallsChunk(Sorted(m))])
        + if scanErr.Some? then [ErrChunk(scanErr.value)] else []
    else
      match lines[0]
      case Other => Tail(scanErr, lines[1..], m)
      case DoneMark => if Sorted(m) == [] then [] else [CallsChunk(Sorted(m))]
      case Garbled(e) => [ErrChunk(e)]
      case Data(content, deltas, usage, finished) =>
        (if content == "" && !finished && usage.None? then [] else [Chunk(content, [], usage, None)])
          + Tail(scanErr, lines[1..], AddAll(m, deltas))
  }

  lemma {:induction false} ParseIsTail(w: Wire, lines: seq<Line>, n: nat, m: Calls, out: seq<Chunk>)
    requires Open(w) && n <= |lines|
    ensures Parse(w, lines, n, m, out) == out + Tail(w.scanErr, lines[n..], m)
    decreases |lines| - n
  {
    var tcs := if Sorted(m) == [] then [] else [CallsChunk(Sorted(m))];
    if n == |lines| {
      assert out + [] == out;
      assert tcs + [] == tcs;
      Assoc(out, tcs, if w.scanErr.Some? then [ErrChunk(w.scanErr.value)] else []);
    } else {
      assert lines[n..][0] == lines[n] && lines[n..][1..] == lines[n + 1..];
      match lines[n] {
        case Other => ParseIsTail(w, lines, n + 1, m, out);
        case DoneMark => assert out + [] == out;
        case Garbled(e) =>
        case Data(content, deltas, usage, finished) =>
          var more := if content == "" && !finished && usage.None? then [] else [Chunk(content, [], usage, None)];
          ParseIsTail(w, lines, n + 1, AddAll(m, deltas), out + more);
          assert out + [] == out;
          Assoc(out, more, Tail(w.scanErr, lines[n + 1..], AddAll(m, deltas)));
      }
    }
  }

  lemma {:induction false} AddAllAppend(m: Calls, a: seq<Delta>, b: seq<Delta>)
    ensures AddAll(AddAll(m, a), b) == AddAll(m, a + b)
    decreases |b|
  {
    if b == [] {
      assert a + b == a;
    } else {
      AddAllAppend(m, a, b[..|b| - 1]);
      assert (a + b)[..|a + b| - 1] == a + b[..|b| - 1];
    }
  }

  lemma {:induction false} TailFaults(scanErr: Option<Error>, lines: seq<Line>, m: Calls)
    ensures FirstError(Tail(scanErr, lines, m)) == Fault(lines, scanErr)
    decreases |lines|
  {
    var last := if scanErr.Some? then [ErrChunk(scanErr.value)] else [];
    var tcs := Sorted(m);
    if lines == [] {
      assert FirstError(last) == scanErr;
      if tcs != [] {
      } else {
        assert [] + last == last;
      }
    } else {
      match lines[0] {
        case Other => TailFaults(scanErr, lines[1..], m);
        case DoneMark =>
          if tcs != [] {
            assert [CallsChunk(tcs)] + [] == [CallsChunk(tcs)];
          }
        case Garbled(e) =>
        case Data(content, deltas, usage, finished) =>
          TailFaults(scanErr, lines[1..], AddAll(m, deltas));
          var rest := Tail(scanErr, lines[1..], AddAll(m, deltas));
          assert [] + rest == rest;
      }
    }
  }

  /** The chunk that carries the calls says nothing else. */
  lemma LastChunk(m: Calls)
    ensures var t := if Sorted(m) == [] then [] else [CallsChunk(Sorted(m))];
            TextOf(t) == "" && CallsOf(t) == Sorted(m) && LastUsage(t) == None
  {
    if Sorted(m) != [] {
      var c := CallsChunk(Sorted(m));
      assert [c] == [c] + [];
      assert Sorted(m) + [] == Sorted(m);
    }
  }

  lemma FoldData(content: string, usage: Option<Usage>, finished: bool, t: seq<Chunk>)
    ensures var quiet := content == "" && !finished && usage.None?;
            var all := (if quiet then [] else [Chunk(content, [], usage, None)]) + t;
      && TextOf(all) == content + TextOf(t) && CallsOf(all) == CallsOf(t)
      && LastUsage(all) == if LastUsage(t).Some? then LastUsage(t) else usage
  {
    assert [] + t == t && [] + CallsOf(t) == CallsOf(t);
    assert content == "" ==> content + TextOf(t) == TextOf(t);
  }

  lemma BodyStep(lines: seq<Line>)
    requires lines != [] && (lines[0].Other? || lines[0].Data?)
    ensures var body, rest := Body(lines), Body(lines[1..]);
      && ContentOf(body) == (if lines[0].Data? then lines[0].content + ContentOf(rest) else ContentOf(rest))
      && DeltasOf(body) == (if lines[0].Data? then lines[0].deltas + DeltasOf(rest) else DeltasOf(rest))
      && UsageOf(body)
         == (if UsageOf(rest).Some? then UsageOf(rest) else if lines[0].Data? then lines[0].usage else None)
  {
    var rest := Body(lines[1..]);
    assert Body(lines)[1..] == rest;
    assert "" + ContentOf(rest) == ContentOf(rest) && [] + DeltasOf(rest) == DeltasOf(rest);
  }

  lemma {:induction false} TailFolds(lines: seq<Line>, m: Calls)
    requires Fault(lines, None).None?
    ensures var t, body := Tail(None, lines, m), Body(lines);
      && TextOf(t) == ContentOf(body) && LastUsage(t) == UsageOf(body)
      && CallsOf(t) == Sorted(AddAll(m, DeltasOf(body)))
    decreases |lines|
  {
    if lines == [] || lines[0].DoneMark? {
      LastChunk(m);
      var tcs := if Sorted(m) == [] then [] else [CallsChunk(Sorted(m))];
      assert tcs + [] == tcs;
    } else {
      var rest := Body(lines[1..]);
      BodyStep(lines);
      match lines[0] {
        case Other => TailFolds(lines[1..], m);
        case Data(content, deltas, usage, finished) =>
          var m' := AddAll(m, deltas);
          TailFolds(lines[1..], m');
          FoldData(content, usage, finished, Tail(None, lines[1..], m'));
          AddAllAppend(m, deltas, DeltasOf(rest));
          assert AddAll(m', DeltasOf(rest)) == AddAll(m, DeltasOf(Body(lines)));
      }
    }
  }

  /** A stream that is read to its end without a fault folds to the completion that
      its fragments were cut from, in whatever way the fragments of different calls
      were interleaved; a fault becomes the stream's error. With StreamRefinesRun this
      carries the synchronous loop's outcome over to the wire. */
  lemma StreamDelivers(w: Wire, lines: seq<Line>, calls: seq<ToolCall>)
    requires Open(w)
    requires Fault(lines, w.scanErr).None? ==> CutInto(calls, DeltasOf(Body(lines)))
    ensures Matches(
              match Fault(lines, w.scanErr)
              case Some(e) => Err(e)
              case None => Ok(Completion(ContentOf(Body(lines)), calls, UsageOf(Body(lines)).GetOr(NO_USAGE))),
              Ok(Parse(w, lines, 0, map[], [])))
  {
    ParseIsTail(w, lines, 0, map[], []);
    assert lines[0..] == lines;
    var t := Tail(w.scanErr, lines, map[]);
    assert [] + t == t;
    TailFaults(w.scanErr, lines, map[]);
    if Fault(lines, w.scanErr).None? {
      NoFaultNoScanErr(w.scanErr, lines, map[]);
      TailFolds(lines, map[]);
      var ds := DeltasOf(Body(lines));
      CallsReassemble(calls, ds);
      var m := AddAll(map[], ds);
      if Bound(m) <= |calls| {
        BoundDoesNotMatter(m, Bound(m), |calls|);
      } else {
        BoundDoesNotMatter(m, |calls|, Bound(m));
      }
    }
  }

  lemma {:induction false} NoFaultNoScanErr(scanErr: Option<Error>, lines: seq<Line>, m: Calls)
    requires Fault(lines, scanErr).None?
    ensures Fault(lines, None).None? && Tail(scanErr, lines, m) == Tail(None, lines, m)
    decreases |lines|
  {
    if lines != [] {
      match lines[0] {
        case Other => NoFaultNoScanErr(scanErr, lines[1..], m);
        case Data(_, deltas, _, _) => NoFaultNoScanErr(scanErr, lines[1..], AddAll(m, deltas));
        case _ =>
      }
    }
  }

  /** The lines of a stream spell out what a call would have returned: the same
      text and usage, and its tool calls cut into interleaved fragments; or they
      end in its error. */
  ghost predicate Spells(w: Wire, lines: seq<Line>, c: Result<Completion, Error>) {
    Open(w) &&
    match Fault(lines, w.scanErr)
    case Some(e) => c == Err(e)
    case None =>
      && c.Ok? && c.value.content == ContentOf(Body(lines))
      && c.value.usage == UsageOf(Body(lines)).GetOr(NO_USAGE)
      && CutInto(c.value.toolCalls, DeltasOf(Body(lines)))
  }

  /** What each call of the provider reads from its connection. */
  type Connection = (nat, seq<Message>) -> (Wire, seq<Line>)

  ghost predicate StreamsOver(conn: Connection, w: World) {
    forall i, ms :: w.stream(i, ms) == Ok(Parse(conn(i, ms).0, conn(i, ms).1, 0, map[], []))
  }

  /** From the wire to the outcome: a run that streams over connections which spell
      out the completions of the provider ends as the synchronous run does. */
  lemma WireRefinesRun(cfg: LoopConfig, w: World, req: Request, conn: Connection)
    requires (forall n :: w.accepts(n)) && (forall i :: w.ctxErr(i).None?)
    requires StreamsOver(conn, w)
    requires forall i, ms :: Spells(conn(i, ms).0, conn(i, ms).1, w.complete(i, ms))
    ensures Refines(StreamReason(cfg, w, AgentLoop.Begin(req), []), AgentLoop.Reason(cfg, w, AgentLoop.Begin(req)))
  {
    forall i, ms ensures Matches(w.complete(i, ms), w.stream(i, ms)) {
      var (wire, lines) := conn(i, ms);
      assert Spells(wire, lines, w.complete(i, ms));
      StreamDelivers(wire, lines, if w.complete(i, ms).Ok? then w.complete(i, ms).value.toolCalls else []);
    }
    StreamRefinesRun(cfg, w, req);
  }
}
