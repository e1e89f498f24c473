/** Messages, tool calls and the parts of the reasoning loop that both of its
  versions share (internal/agent/types.go, config.go, guards.go, executor.go and
  the helpers of loop.go). */
module AgentTypes {
  import opened Messages
  import opened Options

  datatype Usage = Usage(prompt: int, completion: int, total: int)

  const NO_USAGE := Usage(0, 0, 0)

  function AddUsage(a: Usage, b: Usage): Usage {
    Usage(a.prompt + b.prompt, a.completion + b.completion, a.total + b.total)
  }

  datatype Completion = Completion(content: string, toolCalls: seq<ToolCall>, usage: Usage)

  /** What running a registered tool can do. */
  datatype ToolOutcome = Returned(out: Output) | Errored(text: string) | Panicked(value: string)

  datatype ToolRecord = ToolRecord(id: string, name: string, args: string, output: Output, panicked: bool)

  datatype Error = ContextDone(deadline: bool) | ProviderFailed(text: string)
    | TokenBudgetExceeded | MaxIterationsReached | LoopFound

  datatype StopReason = Complete | MaxIterations | LoopDetected | TokenBudget | TimedOut | Failure

  datatype Response = Response(content: string, toolCalls: seq<ToolRecord>, totalUsage: Usage,
                               iterations: nat, stopReason: StopReason, model: string, provider: string)

  datatype Request = Request(messages: seq<Message>, systemPrompt: string)

  datatype LoopConfig = LoopConfig(maxIterations: nat, tokenBudget: int, loopThreshold: nat, providerName: string)

  function WithDefaults(maxIterations: int, tokenBudget: int, loopThreshold: int, providerName: string): (c: LoopConfig)
    ensures c.maxIterations > 0 && c.loopThreshold > 0
  {
    LoopConfig(if maxIterations <= 0 then 10 else maxIterations, tokenBudget,
               if loopThreshold <= 0 then 3 else loopThreshold, providerName)
  }

  /** One piece of a provider's stream. */
  datatype Chunk = Chunk(content: string, toolCalls: seq<ToolCall>, usage: Option<Usage>, err: Option<Error>)

  /** Everything the loop does not control: the context, the provider in both of
      its forms, the tools (by iteration and position), the canonical form of
      arguments, and whether the n-th stream event finds a receiver before the
      context ends. */
  datatype World = World(
    ctxErr: nat -> Option<Error>,
    complete: (nat, seq<Message>) -> Result<Completion, Error>,
    stream: (nat, seq<Message>) -> Result<seq<Chunk>, Error>,
    tool: (nat, nat, ToolCall) -> ToolOutcome,
    canonical: string -> string,
    accepts: nat -> bool,
    modelName: string)

  // ----- helpers of loop.go -----

  function InitialMessages(req: Request): seq<Message> {
    (if req.systemPrompt != "" then [Message(System, req.systemPrompt, [], "", [], "", false)] else []) + req.messages
  }

  function AssistantMessage(content: string, calls: seq<ToolCall>): Message {
    Message(Assistant, content, [], "", calls, "", false)
  }

  function ToolMessage(r: ToolRecord): Message {
    Message(Tool, r.output.content, [], "", [], r.id, r.output.isError)
  }

  function ToolMessages(records: seq<ToolRecord>): (ms: seq<Message>)
    ensures |ms| == |records|
    ensures forall k | 0 <= k < |ms| :: ms[k].role.Tool? && ms[k].toolID == records[k].id
  {
    seq(|records|, k requires 0 <= k < |records| => ToolMessage(records[k]))
  }

  // ----- guards.go -----

  function Signature(w: World, tc: ToolCall): string { tc.name + ":" + w.canonical(tc.args) }

  function CountOf(counts: map<string, nat>, key: string): nat { if key in counts then counts[key] else 0 }

  /** The loop over the detector: counts calls until one reaches the threshold. */
  function RecordAll(w: World, threshold: nat, counts: map<string, nat>, calls: seq<ToolCall>): (map<string, nat>, bool)
    decreases calls
  {
    if calls == [] then (counts, false)
    else
      var key := Signature(w, calls[0]);
      var counts' := counts[key := CountOf(counts, key) + 1];
      if counts'[key] >= threshold then (counts', true)
      else RecordAll(w, threshold, counts', calls[1..])
  }

  function Occurrences(w: World, calls: seq<ToolCall>, key: string): nat {
    if calls == [] then 0
    else (if Signature(w, calls[0]) == key then 1 else 0) + Occurrences(w, calls[1..], key)
  }

  /** Without a hit, every call is counted and every count stays below the
      threshold. */
  lemma {:induction false} RecordAllCounts(w: World, threshold: nat, counts: map<string, nat>, calls: seq<ToolCall>)
    requires forall k | k in counts :: counts[k] < threshold
    requires !RecordAll(w, threshold, counts, calls).1
    ensures var counts' := RecordAll(w, threshold, counts, calls).0;
            && (forall k | k in counts' :: counts'[k] < threshold)
            && (forall k :: CountOf(counts', k) == CountOf(counts, k) + Occurrences(w, calls, k))
    decreases calls
  {
    if calls != [] {
      var key := Signature(w, calls[0]);
      RecordAllCounts(w, threshold, counts[key := CountOf(counts, key) + 1], calls[1..]);
    }
  }

  lemma {:induction false} RecordAllHits(w: World, threshold: nat, counts: map<string, nat>, calls: seq<ToolCall>)
    returns (key: string)
    requires RecordAll(w, threshold, counts, calls).1
    ensures CountOf(counts, key) + Occurrences(w, calls, key) >= threshold
    decreases calls
  {
    key := Signature(w, calls[0]);
    var counts' := counts[key := CountOf(counts, key) + 1];
    if counts'[key] < threshold {
      key := RecordAllHits(w, threshold, counts', calls[1..]);
    }
  }

  /** The detector stops a response if and only if that response would bring
      some signature to the threshold. */
  lemma HitMeansThreshold(w: World, threshold: nat, counts: map<string, nat>, calls: seq<ToolCall>)
    requires threshold > 0 && forall k | k in counts :: counts[k] < threshold
    ensures RecordAll(w, threshold, counts, calls).1
       <==> exists key :: CountOf(counts, key) + Occurrences(w, calls, key) >= threshold
  {
    if RecordAll(w, threshold, counts, calls).1 {
      var key := RecordAllHits(w, threshold, counts, calls);
    } else {
      RecordAllCounts(w, threshold, counts, calls);
      var counts' := RecordAll(w, threshold, counts, calls).0;
      forall key ensures CountOf(counts, key) + Occurrences(w, calls, key) < threshold {
        assert CountOf(counts', key) < threshold;
      }
    }
  }

  class LoopDetector {
    const threshold: nat
    var counts: map<string, nat>

    constructor (threshold: nat)
      ensures this.threshold == threshold && counts == map[]
    {
      this.threshold, counts := threshold, map[];
    }

    method Record(w: World, tc: ToolCall) returns (hit: bool)
      modifies this`counts
      ensures counts == old(counts)[Signature(w, tc) := CountOf(old(counts), Signature(w, tc)) + 1]
      ensures hit <==> counts[Signature(w, tc)] >= threshold
    {
      var key := Signature(w, tc);
      counts := counts[key := CountOf(counts, key) + 1];
      hit := counts[key] >= threshold;
    }

    /** The check over all calls of one response. */
    method RecordCalls(w: World, calls: seq<ToolCall>) returns (hit: bool)
      modifies this`counts
      ensures (counts, hit) == RecordAll(w, threshold, old(counts), calls)
    {
      var n := 0;
      while n < |calls|
        invariant 0 <= n <= |calls|
        invariant RecordAll(w, threshold, counts, calls[n..]) == RecordAll(w, threshold, old(counts), calls)
      {
        var key := Signature(w, calls[n]);
        hit := Record(w, calls[n]);
        assert calls[n..][0] == calls[n] && calls[n..][1..] == calls[n + 1..];
        if hit {
          return;
        }
        n := n + 1;
      }
      hit := false;
    }
  }

  predicate Exceeded(budget: int, usage: Usage) { budget > 0 && usage.total >= budget }

  class TokenTracker {
    const budget: int
    var usage: Usage

    constructor (budget: int)
      ensures this.budget == budget && usage == NO_USAGE
    {
      this.budget, usage := budget, NO_USAGE;
    }

    method Add(u: Usage)
      modifies this`usage
      ensures usage == AddUsage(old(usage), u)
    {
      usage := Usage(usage.prompt + u.prompt, usage.completion + u.completion, usage.total + u.total);
    }
  }

  // ----- executor.go -----

  /** The record that executeSingle leaves behind; the deferred recover turns a
      panic into an error output of the same call. */
  function ExecuteSingle(tc: ToolCall, o: ToolOutcome): (r: ToolRecord)
    ensures r.id == tc.id && r.name == tc.name && r.args == tc.args
  {
    match o
    case Returned(out) => ToolRecord(tc.id, tc.name, tc.args, out, false)
    case Errored(text) => ToolRecord(tc.id, tc.name, tc.args, Output(text, true), false)
    case Panicked(v) => ToolRecord(tc.id, tc.name, tc.args, Output("panic: " + v, true), true)
  }

  /** The records answer the calls one by one. */
  predicate Answers(records: seq<ToolRecord>, calls: seq<ToolCall>) {
    && |records| == |calls|
    && forall k | 0 <= k < |calls| ::
         records[k].id == calls[k].id && records[k].name == calls[k].name && records[k].args == calls[k].args
  }

  function ExecuteAll(w: World, i: nat, calls: seq<ToolCall>): (records: seq<ToolRecord>)
    ensures Answers(records, calls)
  {
    var records := seq(|calls|, k requires 0 <= k < |calls| => ExecuteSingle(calls[k], w.tool(i, k, calls[k])));
    assert forall k | 0 <= k < |calls| :: records[k] == ExecuteSingle(calls[k], w.tool(i, k, calls[k]));
    records
  }

  function Indices(n: nat): (s: set<nat>)
    ensures forall k: nat :: k in s <==> k < n
  {
    if n == 0 then {} else Indices(n - 1) + {n - 1}
  }

  /** The goroutines of Execute finish in any order; each fills its own slot. */
  method Execute(w: World, i: nat, calls: seq<ToolCall>) returns (records: seq<ToolRecord>)
    ensures records == ExecuteAll(w, i, calls)
  {
    var results := new ToolRecord[|calls|](_ => ToolRecord("", "", "", Output("", false), false));
    var running := Indices(|calls|);
    while running != {}
      invariant forall k | k in running :: k < |calls|
      invariant forall k: nat | k < |calls| && k !in running ::
        results[k] == ExecuteSingle(calls[k], w.tool(i, k, calls[k]))
      decreases running
    {
      var idx :| idx in running;
      results[idx] := ExecuteSingle(calls[idx], w.tool(i, idx, calls[idx]));
      running := running - {idx};
    }
    records := results[..];
  }
}
