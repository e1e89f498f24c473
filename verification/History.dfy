/** Fitting a request into the context window (internal/context/assembler.go,
  budget.go, compactor.go). Token estimates are an arbitrary non-negative function
  of a text. */
module History {
  import opened Messages
  import opened Options

  type Estimator = string -> nat

  // ---------------------------------------------------------------------
  // Estimates
  // ---------------------------------------------------------------------

  function PartsCost(est: Estimator, parts: seq<Part>): nat {
    if parts == [] then 0
    else
      PartsCost(est, parts[..|parts| - 1]) +
      match parts[|parts| - 1]
      case TextPart(t) => est(t)
      case ImagePart(_) => 765
      case OtherPart => 0
  }

  function CallsCost(est: Estimator, calls: seq<ToolCall>): nat {
    if calls == [] then 0
    else CallsCost(est, calls[..|calls| - 1]) + est(calls[|calls| - 1].name) + est(calls[|calls| - 1].args)
  }

  function MessageCost(est: Estimator, m: Message): nat {
    4 + (if m.parts != [] then PartsCost(est, m.parts) else est(m.content))
      + (if m.name != "" then est(m.name) else 0) + CallsCost(est, m.toolCalls)
  }

  function Cost(est: Estimator, ms: seq<Message>): nat {
    if ms == [] then 0 else Cost(est, ms[..|ms| - 1]) + MessageCost(est, ms[|ms| - 1])
  }

  lemma {:induction false} CostAppend(est: Estimator, a: seq<Message>, b: seq<Message>)
    ensures Cost(est, a + b) == Cost(est, a) + Cost(est, b)
    decreases |b|
  {
    if b == [] {
      assert a + b == a;
    } else {
      CostAppend(est, a, b[..|b| - 1]);
      assert (a + b)[..|a + b| - 1] == a + b[..|b| - 1];
    }
  }

  method EstimateMessage(est: Estimator, m: Message) returns (total: nat)
    ensures total == MessageCost(est, m)
  {
    total := 4;
    if |m.parts| > 0 {
      for i := 0 to |m.parts|
        invariant total == 4 + PartsCost(est, m.parts[..i])
      {
        assert m.parts[..i + 1][..i] == m.parts[..i];
        match m.parts[i]
        case TextPart(t) => total := total + est(t);
        case ImagePart(_) => total := total + 765;
        case OtherPart =>
      }
      assert m.parts[..|m.parts|] == m.parts;
    } else {
      total := total + est(m.content);
    }
    if m.name != "" {
      total := total + est(m.name);
    }
    ghost var base := total;
    for j := 0 to |m.toolCalls|
      invariant total == base + CallsCost(est, m.toolCalls[..j])
    {
      assert m.toolCalls[..j + 1][..j] == m.toolCalls[..j];
      total := total + est(m.toolCalls[j].name);
      total := total + est(m.toolCalls[j].args);
    }
    assert m.toolCalls[..|m.toolCalls|] == m.toolCalls;
  }

  method EstimateMessages(est: Estimator, ms: seq<Message>) returns (total: nat)
    ensures total == Cost(est, ms)
  {
    total := 0;
    for i := 0 to |ms|
      invariant total == Cost(est, ms[..i])
    {
      assert ms[..i + 1][..i] == ms[..i];
      var one := EstimateMessage(est, ms[i]);
      total := total + one;
    }
    assert ms[..|ms|] == ms;
  }

  // ---------------------------------------------------------------------
  // trimHistory
  // ---------------------------------------------------------------------

  predicate HasSummary(h: seq<Message>) { h != [] && h[0].role.System? }

  function FirstStart(h: seq<Message>): nat { if HasSummary(h) then 1 else 0 }

  /** The start that keeps least: the last message, beside a summary. */
  function LastStart(h: seq<Message>): nat {
    if |h| - 1 < FirstStart(h) then FirstStart(h) else |h| - 1
  }

  /** The summary, if any, and the messages from a start on. */
  function From(h: seq<Message>, start: nat): seq<Message>
    requires start <= |h|
  {
    if HasSummary(h) then [h[0]] + h[start..] else h[start..]
  }

  lemma FromFirst(h: seq<Message>)
    requires h != []
    ensures From(h, FirstStart(h)) == h
  {
  }

  lemma FromCost(est: Estimator, h: seq<Message>, start: nat)
    requires FirstStart(h) <= start <= |h|
    ensures Cost(est, From(h, start)) == Cost(est, h[start..]) + if HasSummary(h) then Cost(est, h[..1]) else 0
  {
    if HasSummary(h) {
      assert h[..1] == [h[0]];
      CostAppend(est, h[..1], h[start..]);
    }
  }

  lemma SuffixCost(est: Estimator, h: seq<Message>, a: nat, b: nat)
    requires a <= b <= |h|
    ensures Cost(est, h[a..]) == Cost(est, h[a..b]) + Cost(est, h[b..])
  {
    assert h[a..] == h[a..b] + h[b..];
    CostAppend(est, h[a..b], h[b..]);
  }

  /** A shorter suffix costs no more. */
  lemma ShorterCostsLess(est: Estimator, h: seq<Message>, start: nat, start': nat)
    requires FirstStart(h) <= start <= start' <= |h|
    ensures CostAt(est, h, start') <= CostAt(est, h, start)
  {
    FromCost(est, h, start);
    FromCost(est, h, start');
    SuffixCost(est, h, start, start');
  }

  /** What is left costs this much at a start. */
  function CostAt(est: Estimator, h: seq<Message>, start: nat): nat
    requires start <= |h|
  {
    Cost(est, From(h, start))
  }

  lemma TooLongStep(est: Estimator, h: seq<Message>, budget: nat, k: nat)
    requires k < |h| && TooLongBefore(est, h, budget, k) && CostAt(est, h, k) > budget
    ensures TooLongBefore(est, h, budget, k + 1)
  {
  }

  /** No start from the first to before k leaves little enough. */
  ghost predicate TooLongBefore(est: Estimator, h: seq<Message>, budget: nat, k: nat)
    requires k <= |h|
  {
    forall s | FirstStart(h) <= s < k :: CostAt(est, h, s) > budget
  }

  /** k is the first start, from the front, at which the rest fits, or the last
      start there is. */
  ghost predicate TrimsAt(est: Estimator, h: seq<Message>, budget: nat, k: nat) {
    && FirstStart(h) <= k <= LastStart(h) && k <= |h|
    && TooLongBefore(est, h, budget, k)
    && (CostAt(est, h, k) <= budget || k == LastStart(h))
  }

  /** What the loop of trimHistory computes for a start. */
  method CostFrom(est: Estimator, h: seq<Message>, hasSummary: bool, start: nat) returns (tokens: nat)
    requires h != [] && hasSummary == HasSummary(h) && FirstStart(h) <= start <= |h|
    ensures tokens == CostAt(est, h, start)
  {
    var remaining := h[start..];
    tokens := EstimateMessages(est, remaining);
    if hasSummary {
      var one := EstimateMessages(est, h[..1]);
      tokens := tokens + one;
    }
    FromCost(est, h, start);
  }

  /** The loop of trimHistory. */
  method DropOldest(est: Estimator, h: seq<Message>, budget: nat, hasSummary: bool, first: nat, all: nat)
    returns (start: nat)
    requires h != [] && hasSummary == HasSummary(h) && first == FirstStart(h) && all == CostAt(est, h, first)
    ensures TrimsAt(est, h, budget, start)
  {
    start := first;
    var tokens := all;
    while tokens > budget && start < |h| - 1
      invariant FirstStart(h) <= start <= LastStart(h) && start <= |h|
      invariant tokens == CostAt(est, h, start)
      invariant TooLongBefore(est, h, budget, start)
      decreases |h| - start
    {
      TooLongStep(est, h, budget, start);
      start := start + 1;
      tokens := CostFrom(est, h, hasSummary, start);
    }
  }

  method TrimHistory(est: Estimator, h: seq<Message>, budget: nat) returns (r: seq<Message>, ghost k: nat)
    ensures h == [] ==> r == []
    ensures h != [] ==> TrimsAt(est, h, budget, k) && r == From(h, k)
  {
    k := 0;
    if |h| == 0 {
      return h, 0;
    }
    var tokens := EstimateMessages(est, h);
    FromFirst(h);
    if tokens <= budget {
      return h, FirstStart(h);
    }
    var hasSummary := h[0].role == System;
    var start := 0;
    if hasSummary {
      start := 1;
    }
    start := DropOldest(est, h, budget, hasSummary, start, tokens);
    k := start;
    if hasSummary {
      r := [h[0]] + h[start..];
    } else {
      r := h[start..];
    }
  }

  /** The trimmed history is the longest that fits: it fits exactly when the last
      message (beside the summary) fits, and then exactly the starts from it on fit. */
  lemma TrimIsLongest(est: Estimator, h: seq<Message>, budget: nat, k: nat)
    requires h != [] && TrimsAt(est, h, budget, k)
    ensures CostAt(est, h, k) <= budget <==> CostAt(est, h, LastStart(h)) <= budget
    ensures CostAt(est, h, k) <= budget ==>
              forall s | FirstStart(h) <= s <= |h| :: CostAt(est, h, s) <= budget <==> k <= s
  {
    ShorterCostsLess(est, h, k, LastStart(h));
    forall s | k <= s <= |h| ensures CostAt(est, h, s) <= CostAt(est, h, k) {
      ShorterCostsLess(est, h, k, s);
    }
  }

  // ---------------------------------------------------------------------
  // Memory facts
  // ---------------------------------------------------------------------

  function FactLines(facts: seq<string>): string {
    if facts == [] then "" else FactLines(facts[..|facts| - 1]) + "- " + facts[|facts| - 1] + "\n"
  }

  function FormatFacts(facts: seq<string>): string {
    if facts == [] then "" else "## Relevant Memory\n\n" + FactLines(facts)
  }

  /** What the first j facts cost. */
  function FactsCost(est: Estimator, facts: seq<string>, j: nat): nat
    requires j <= |facts|
  {
    est(FormatFacts(facts[..j]))
  }

  /** The facts kept under a limit: the longest prefix all of whose non-empty
      prefixes fit; all facts when there is no limit. */
  ghost predicate KeepsFacts(est: Estimator, facts: seq<string>, maxTokens: int, k: nat) {
    if maxTokens <= 0 then k == |facts|
    else
      && k <= |facts|
      && (forall j | 0 < j <= k :: FactsCost(est, facts, j) <= maxTokens)
      && (k < |facts| ==> FactsCost(est, facts, k + 1) > maxTokens)
  }

  method LimitMemoryFactsByTokens(est: Estimator, facts: seq<string>, maxTokens: int)
    returns (kept: seq<string>, tokens: nat)
    ensures kept <= facts && KeepsFacts(est, facts, maxTokens, |kept|)
    ensures tokens == if kept == [] then 0 else est(FormatFacts(kept))
    ensures maxTokens > 0 ==> tokens <= maxTokens
  {
    if |facts| == 0 {
      return [], 0;
    }
    if maxTokens <= 0 {
      return facts, est(FormatFacts(facts));
    }
    kept := [];
    var i := 0;
    while i < |facts|
      invariant i <= |facts| && kept == facts[..i]
      invariant forall j | 0 < j <= i :: FactsCost(est, facts, j) <= maxTokens
    {
      var candidate := kept + [facts[i]];
      assert candidate == facts[..i + 1];
      assert FactsCost(est, facts, i + 1) == est(FormatFacts(candidate));
      if est(FormatFacts(candidate)) > maxTokens {
        break;
      }
      kept := candidate;
      i := i + 1;
    }
    if |kept| == 0 {
      return [], 0;
    }
    assert FactsCost(est, facts, |kept|) == est(FormatFacts(kept));
    tokens := est(FormatFacts(kept));
  }

  // ---------------------------------------------------------------------
  // Compaction
  // ---------------------------------------------------------------------

  datatype Config = Config(maxContextTokens: int, reservedForReply: int, compactionThreshold: int,
                           retainRecent: nat, maxMemoryTokens: int, maxMemoryFacts: int)

  type Summarizer = seq<Message> -> Result<string, string>

  function SummaryMessage(summary: string): Message {
    Message(System, "[Conversation Summary]\n" + summary, [], "", [], "", false)
  }

  function Compacted(c: Config, summarizer: Option<Summarizer>, h: seq<Message>): Result<seq<Message>, string> {
    if |h| <= c.retainRecent then Ok(h)
    else
      var cut := |h| - c.retainRecent;
      match (if summarizer.None? then Ok("") else summarizer.value(h[..cut]))
      case Err(e) => Err(e)
      case Ok(summary) => Ok((if summary == "" then [] else [SummaryMessage(summary)]) + h[cut..])
  }

  /** The n most recent messages, after at most one system message. */
  predicate EndsWithRecent(r: seq<Message>, h: seq<Message>, n: nat)
    requires n <= |h|
  {
    || r == h[|h| - n..]
    || (|r| == n + 1 && r[0].role.System? && r[1..] == h[|h| - n..])
  }

  /** Compact, and what it keeps: the most recent messages at the end, at most one
      new system message before them. */
  method Compact(c: Config, summarizer: Option<Summarizer>, h: seq<Message>) returns (r: Result<seq<Message>, string>)
    ensures r == Compacted(c, summarizer, h)
    ensures r.Ok? && |h| <= c.retainRecent ==> r.value == h
    ensures r.Ok? && |h| > c.retainRecent ==> EndsWithRecent(r.value, h, c.retainRecent)
  {
    var retain := c.retainRecent;
    if |h| <= retain {
      return Ok(h);
    }
    var old' := h[..|h| - retain];
    var recent := h[|h| - retain..];
    var summary := "";
    if summarizer.Some? && |old'| > 0 {
      var answer := summarizer.value(old');
      if answer.Err? {
        return Err(answer.error);
      }
      summary := answer.value;
    }
    if summary == "" {
      assert [] + recent == recent;
      return Ok(recent);
    }
    return Ok([SummaryMessage(summary)] + recent);
  }

  // ---------------------------------------------------------------------
  // Assemble
  // ---------------------------------------------------------------------

  datatype Budget = Budget(windowSize: int, system: nat, tools: nat, memory: nat, history: nat, reserved: int) {
    function Used(): int { system + tools + memory + history + reserved }

    predicate Exceeded() { Used() > windowSize }

    function Available(): int { if windowSize - Used() < 0 then 0 else windowSize - Used() }
  }

  datatype Request = Request(windowSize: int, systemParts: seq<string>, toolTokens: nat, history: seq<Message>,
                             facts: seq<string>)

  datatype Assembly = Assembly(systemPrompt: string, messages: seq<Message>, budget: Budget, compacted: bool)

  function JoinParts(parts: seq<string>): string {
    if parts == [] then ""
    else if |parts| == 1 then parts[0]
    else parts[0] + "\n\n" + JoinParts(parts[1..])
  }

  function Window(c: Config, req: Request): int {
    if c.maxContextTokens > 0 then c.maxContextTokens else req.windowSize
  }

  /** The history that is trimmed: compacted when it is over the threshold and a
      compactor is attached. */
  function ToTrim(c: Config, compactor: Option<Option<Summarizer>>, h: seq<Message>): Result<seq<Message>, string> {
    if compactor.Some? && |h| > c.compactionThreshold then Compacted(c, compactor.value, h) else Ok(h)
  }

  /** What everything but the history costs. */
  function Fixed(b: Budget): int { b.system + b.tools + b.memory + b.reserved }

  /** What the least history that trimming can leave costs. */
  function LeastHistory(est: Estimator, h: seq<Message>): nat {
    if h == [] then 0 else CostAt(est, h, LastStart(h))
  }

  /** The facts that MaxMemoryFacts and MaxMemoryTokens leave. */
  ghost predicate FactsKept(est: Estimator, c: Config, all: seq<string>, kept: seq<string>) {
    var n := if 0 < c.maxMemoryFacts < |all| then c.maxMemoryFacts else |all|;
    kept <= all[..n] && KeepsFacts(est, all[..n], c.maxMemoryTokens, |kept|)
  }

  method LimitFacts(est: Estimator, c: Config, all: seq<string>) returns (facts: seq<string>, memoryTokens: nat)
    ensures FactsKept(est, c, all, facts)
    ensures memoryTokens == if facts == [] then 0 else est(FormatFacts(facts))
    ensures c.maxMemoryTokens > 0 ==> memoryTokens <= c.maxMemoryTokens
  {
    facts, memoryTokens := all, 0;
    if c.maxMemoryFacts > 0 && |facts| > c.maxMemoryFacts {
      facts := facts[..c.maxMemoryFacts];
    } else {
      assert all[..|all|] == all;
    }
    if |facts| > 0 {
      facts, memoryTokens := LimitMemoryFactsByTokens(est, facts, c.maxMemoryTokens);
    }
  }

  /** Compaction and trimming of the history. */
  method FitHistory(est: Estimator, c: Config, compactor: Option<Option<Summarizer>>, all: seq<Message>, budget: nat)
    returns (r: Result<seq<Message>, string>, compacted: bool, ghost k: nat)
    ensures r.Err? <==> ToTrim(c, compactor, all).Err?
    ensures r.Ok? ==> compacted == (compactor.Some? && |all| > c.compactionThreshold)
    ensures r.Ok? ==> Trimmed(est, ToTrim(c, compactor, all).value, budget, r.value, k)
  {
    var history := all;
    compacted, k := false, 0;
    if compactor.Some? && |history| > c.compactionThreshold {
      var shorter := Compact(c, compactor.value, history);
      if shorter.Err? {
        return Err(shorter.error), false, 0;
      }
      history, compacted := shorter.value, true;
    }
    history, k := TrimHistory(est, history, budget);
    r := Ok(history);
  }

  ghost predicate Trimmed(est: Estimator, h: seq<Message>, budget: nat, r: seq<Message>, k: nat) {
    if h == [] then r == [] else TrimsAt(est, h, budget, k) && r == From(h, k)
  }

  /** The parts of the budget are what the parts of the request cost. */
  ghost predicate Accounts(est: Estimator, c: Config, req: Request, a: Assembly) {
    && a.budget.windowSize == Window(c, req) && a.budget.reserved == c.reservedForReply
    && a.budget.system == est(JoinParts(req.systemParts)) && a.budget.tools == req.toolTokens
    && a.budget.history == Cost(est, a.messages)
    && (c.maxMemoryTokens > 0 ==> a.budget.memory <= c.maxMemoryTokens)
  }

  /** Assemble. An error is the summarizer's. The history is the longest that fits
      what the rest leaves, and the whole fits the window exactly when the rest
      leaves room for the least that trimming can leave. */
  method Assemble(est: Estimator, c: Config, compactor: Option<Option<Summarizer>>, req: Request)
    returns (r: Result<Assembly, string>, ghost facts: seq<string>, ghost k: nat)
    ensures r.Err? <==> ToTrim(c, compactor, req.history).Err?
    ensures r.Ok? ==> Accounts(est, c, req, r.value)
    ensures r.Ok? ==> r.value.compacted == (compactor.Some? && |req.history| > c.compactionThreshold)
    ensures r.Ok? ==> FactsKept(est, c, req.facts, facts) && SaysFacts(r.value, req, facts, est)
    ensures r.Ok? ==>
      Trimmed(est, ToTrim(c, compactor, req.history).value, HistoryBudget(r.value.budget), r.value.messages, k)
    ensures r.Ok? ==>
      (r.value.budget.Used() <= r.value.budget.windowSize <==>
       Fixed(r.value.budget) + LeastHistory(est, ToTrim(c, compactor, req.history).value) <= Window(c, req))
  {
    var windowSize := req.windowSize;
    if c.maxContextTokens > 0 {
      windowSize := c.maxContextTokens;
    }
    var basePrompt := JoinParts(req.systemParts);
    var systemPrompt := basePrompt;
    var kept, memoryTokens := LimitFacts(est, c, req.facts);
    facts := kept;
    if |kept| > 0 {
      var memorySection := FormatFacts(kept);
      if systemPrompt == "" {
        systemPrompt := memorySection;
      } else {
        systemPrompt := systemPrompt + "\n\n" + memorySection;
      }
    }
    var systemTokens := est(basePrompt);
    var historyBudget := windowSize - systemTokens - memoryTokens - req.toolTokens - c.reservedForReply;
    if historyBudget < 0 {
      historyBudget := 0;
    }
    var history, compacted;
    history, compacted, k := FitHistory(est, c, compactor, req.history, historyBudget);
    if history.Err? {
      return Err(history.error), facts, k;
    }
    var historyTokens := EstimateMessages(est, history.value);
    var budget := Budget(windowSize, systemTokens, req.toolTokens, memoryTokens, historyTokens, c.reservedForReply);
    WindowHolds(est, ToTrim(c, compactor, req.history).value, budget, history.value, k);
    r := Ok(Assembly(systemPrompt, history.value, budget, compacted));
  }

  function HistoryBudget(b: Budget): nat { if b.windowSize - Fixed(b) < 0 then 0 else b.windowSize - Fixed(b) }

  /** The system prompt carries the base prompt and these facts, and the budget
      counts them. */
  ghost predicate SaysFacts(a: Assembly, req: Request, kept: seq<string>, est: Estimator) {
    var base := JoinParts(req.systemParts);
    && a.systemPrompt == (if kept == [] then base
                          else if base == "" then FormatFacts(kept)
                          else base + "\n\n" + FormatFacts(kept))
    && a.budget.memory == if kept == [] then 0 else est(FormatFacts(kept))
  }

  /** The assembled request fits the window if and only if the fixed costs leave
      room for the least that trimming can leave. */
  lemma WindowHolds(est: Estimator, h: seq<Message>, b: Budget, r: seq<Message>, k: nat)
    requires b.history == Cost(est, r)
    requires Trimmed(est, h, HistoryBudget(b), r, k)
    ensures b.Used() <= b.windowSize <==> Fixed(b) + LeastHistory(est, h) <= b.windowSize
  {
    if h != [] {
      TrimIsLongest(est, h, HistoryBudget(b), k);
      ShorterCostsLess(est, h, k, LastStart(h));
    }
  }
}
