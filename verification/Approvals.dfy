/** The approval flow of one PendingApproval (internal/tool/state.go), with any
  number of Begin and Respond calls in flight, and the gate in front of a tool
  body (internal/tool/registry.go, policy.go, elevated.go). */
module Approvals {
  import Messages
  import opened Options

  type Bid = nat   // a Begin call
  type Rid = nat   // a Respond call
  type Chan = nat  // a response channel, with a buffer of one

  datatype Response = Response(approved: bool, reason: string)

  const TIMED_OUT := Response(false, "timed out")

  /** Who put a message into a channel. `saw` is the Begin call that was pending
      when the Respond call passed its check. */
  datatype Source = FromRequester(b: Bid) | FromRespond(r: Rid, saw: Option<Bid>) | FromTimeout(b: Bid)

  datatype Message = Message(response: Response, source: Source)

  datatype ApprovalState = Idle | Pending | TimedOut

  datatype BeginError = Denied | ApprovalTimeout | ContextCancelled | RequestFailed

  datatype BeginPC =
    | Selecting(ch: Chan)                              // inside the select
    | Expiring(ch: Chan)                               // deadline seen, state not yet marked
    | Marked(ch: Chan)                                 // state marked, timeout message not yet offered
    | Leaving(result: Result<Message, BeginError>)     // result chosen, deferred reset to come
    | Returned(result: Result<Message, BeginError>)

  /** The goroutine that asks the requester on behalf of one Begin call. */
  datatype AskPC = Asking(ch: Chan) | Answered(ch: Chan, resp: Response) | AskFailed

  datatype RespondPC = RespondWant(resp: Response) | RespondSend(resp: Response, ch: Chan, saw: Option<Bid>)

  datatype State = State(
    state: ApprovalState,
    responseCh: Chan,
    holder: Option<Bid>,              // the Begin call that made the state Pending
    next: Chan,                       // channels are allocated in order
    bufs: map<Chan, Message>,         // the channels that hold a message
    begins: map<Bid, BeginPC>,
    owner: map<Chan, Bid>,            // which Begin call created a channel
    asks: map<Bid, AskPC>,
    responds: map<Rid, RespondPC>)

  datatype Action =
    | Begin(b: Bid, hasRequester: bool)
    | AskReply(b: Bid, resp: Response)
    | AskError(b: Bid)
    | AskSend(b: Bid)
    | AskAbandon(b: Bid)              // the context ended before the answer was sent
    | TakeResponse(b: Bid)
    | TakeError(b: Bid, cancelled: bool)
    | TakeCancel(b: Bid)
    | SeeDeadline(b: Bid)
    | MarkTimeout(b: Bid)
    | OfferTimeout(b: Bid)
    | Reset(b: Bid)
    | RespondCall(r: Rid, resp: Response)
    | RespondCheck(r: Rid)
    | RespondOffer(r: Rid)

  function Init(): State { State(Idle, 0, None, 1, map[], map[], map[], map[], map[]) }

  predicate Enabled(s: State, a: Action) {
    match a
    case Begin(b, _) => b !in s.begins && b !in s.asks
    case AskReply(b, _) => b in s.asks && s.asks[b].Asking?
    case AskError(b) => b in s.asks && s.asks[b].Asking?
    case AskSend(b) => b in s.asks && s.asks[b].Answered? && s.asks[b].ch !in s.bufs
    case AskAbandon(b) => b in s.asks && s.asks[b].Answered?
    case TakeResponse(b) => b in s.begins && s.begins[b].Selecting? && s.begins[b].ch in s.bufs
    case TakeError(b, _) => b in s.begins && s.begins[b].Selecting? && b in s.asks && s.asks[b].AskFailed?
    case TakeCancel(b) => b in s.begins && s.begins[b].Selecting?
    case SeeDeadline(b) => b in s.begins && s.begins[b].Selecting?
    case MarkTimeout(b) => b in s.begins && s.begins[b].Expiring?
    case OfferTimeout(b) => b in s.begins && s.begins[b].Marked?
    case Reset(b) => b in s.begins && s.begins[b].Leaving?
    case RespondCall(r, _) => r !in s.responds
    case RespondCheck(r) => r in s.responds && s.responds[r].RespondWant?
    case RespondOffer(r) => r in s.responds && s.responds[r].RespondSend?
  }

  /** A non-blocking send into a buffer of one. */
  function Offer(bufs: map<Chan, Message>, ch: Chan, m: Message): map<Chan, Message> {
    if ch in bufs then bufs else bufs[ch := m]
  }

  function Apply(s: State, a: Action): State
    requires Enabled(s, a)
  {
    match a
    case Begin(b, hasRequester) =>
      if !s.state.Idle? then
        s.(begins := s.begins[b := Returned(Err(Denied))])
      else
        s.(state := Pending, responseCh := s.next, next := s.next + 1, holder := Some(b),
           begins := s.begins[b := Selecting(s.next)], owner := s.owner[s.next := b],
           asks := if hasRequester then s.asks[b := Asking(s.next)] else s.asks)
    case AskReply(b, resp) => s.(asks := s.asks[b := Answered(s.asks[b].ch, resp)])
    case AskError(b) => s.(asks := s.asks[b := AskFailed])
    case AskSend(b) =>
      s.(asks := s.asks - {b}, bufs := s.bufs[s.asks[b].ch := Message(s.asks[b].resp, FromRequester(b))])
    case AskAbandon(b) => s.(asks := s.asks - {b})
    case TakeResponse(b) =>
      var ch := s.begins[b].ch;
      s.(begins := s.begins[b := Leaving(Ok(s.bufs[ch]))], bufs := s.bufs - {ch})
    case TakeError(b, cancelled) =>
      s.(begins := s.begins[b := Leaving(Err(if cancelled then ContextCancelled else RequestFailed))])
    case TakeCancel(b) => s.(begins := s.begins[b := Leaving(Err(ContextCancelled))])
    case SeeDeadline(b) => s.(begins := s.begins[b := Expiring(s.begins[b].ch)])
    case MarkTimeout(b) => s.(begins := s.begins[b := Marked(s.begins[b].ch)], state := TimedOut)
    case OfferTimeout(b) =>
      s.(begins := s.begins[b := Leaving(Err(ApprovalTimeout))],
         bufs := Offer(s.bufs, s.begins[b].ch, Message(TIMED_OUT, FromTimeout(b))))
    case Reset(b) =>
      s.(begins := s.begins[b := Returned(s.begins[b].result)], state := Idle, holder := None)
    case RespondCall(r, resp) => s.(responds := s.responds[r := RespondWant(resp)])
    case RespondCheck(r) =>
      if s.state.Pending? then
        s.(responds := s.responds[r := RespondSend(s.responds[r].resp, s.responseCh, s.holder)])
      else
        s.(responds := s.responds - {r})
    case RespondOffer(r) =>
      var p := s.responds[r];
      s.(responds := s.responds - {r}, bufs := Offer(s.bufs, p.ch, Message(p.resp, FromRespond(r, p.saw))))
  }

  // ----- the invariant, by parts -----

  /** A Begin call that has entered and not yet run its deferred reset. */
  predicate Inside(pc: BeginPC) { !pc.Returned? }

  predicate HasChan(pc: BeginPC) { pc.Selecting? || pc.Expiring? || pc.Marked? }

  /** At most one Begin call is inside, and the state says so. */
  ghost predicate OnePending(state: ApprovalState, holder: Option<Bid>, begins: map<Bid, BeginPC>) {
    && (forall b | b in begins && Inside(begins[b]) :: holder == Some(b))
    && (holder.Some? ==> holder.value in begins && Inside(begins[holder.value]))
    && (state.Idle? <==> holder.None?)
  }

  ghost predicate BeginsOwn(begins: map<Bid, BeginPC>, owner: map<Chan, Bid>) {
    forall b | b in begins && HasChan(begins[b]) :: begins[b].ch in owner && owner[begins[b].ch] == b
  }

  ghost predicate AsksOwn(asks: map<Bid, AskPC>, owner: map<Chan, Bid>) {
    forall b | b in asks && !asks[b].AskFailed? :: asks[b].ch in owner && owner[asks[b].ch] == b
  }

  /** A Respond call that has passed its check sends to the channel of the Begin
      call that it saw. */
  ghost predicate RespondsAim(responds: map<Rid, RespondPC>, owner: map<Chan, Bid>) {
    forall r | r in responds && responds[r].RespondSend? ::
      responds[r].saw.Some? && responds[r].ch in owner && owner[responds[r].ch] == responds[r].saw.value
  }

  ghost predicate CurrentOwned(holder: Option<Bid>, responseCh: Chan, owner: map<Chan, Bid>) {
    holder.Some? ==> responseCh in owner && owner[responseCh] == holder.value
  }

  ghost predicate ChannelsOwned(s: State) {
    && (forall ch | ch in s.owner :: ch < s.next)
    && BeginsOwn(s.begins, s.owner) && AsksOwn(s.asks, s.owner)
    && CurrentOwned(s.holder, s.responseCh, s.owner) && RespondsAim(s.responds, s.owner)
  }

  /** The message was put there for this Begin call and for no other. */
  predicate MeantFor(m: Message, b: Bid) {
    match m.source
    case FromRequester(b') => b' == b
    case FromRespond(_, saw) => saw == Some(b)
    case FromTimeout(b') => b' == b && m.response == TIMED_OUT
  }

  ghost predicate BuffersMeant(bufs: map<Chan, Message>, owner: map<Chan, Bid>) {
    forall ch | ch in bufs :: ch in owner && MeantFor(bufs[ch], owner[ch])
  }

  /** The timeout message is offered only after the select is over. */
  ghost predicate TimeoutsLate(bufs: map<Chan, Message>, begins: map<Bid, BeginPC>) {
    forall b | b in begins && HasChan(begins[b]) && begins[b].ch in bufs ::
      !bufs[begins[b].ch].source.FromTimeout?
  }

  ghost predicate ResultsFresh(begins: map<Bid, BeginPC>) {
    forall b | b in begins && (begins[b].Leaving? || begins[b].Returned?) && begins[b].result.Ok? ::
      MeantFor(begins[b].result.value, b) && !begins[b].result.value.source.FromTimeout?
  }

  ghost predicate Inv(s: State) {
    && OnePending(s.state, s.holder, s.begins)
    && ChannelsOwned(s)
    && BuffersMeant(s.bufs, s.owner)
    && TimeoutsLate(s.bufs, s.begins)
    && ResultsFresh(s.begins)
  }

  // ----- each step keeps the invariant -----

  lemma StepKeepsOne(s: State, a: Action)
    requires Enabled(s, a) && OnePending(s.state, s.holder, s.begins)
    ensures var s' := Apply(s, a); OnePending(s'.state, s'.holder, s'.begins)
  {
  }

  lemma StepKeepsBeginsOwn(s: State, a: Action)
    requires Enabled(s, a) && ChannelsOwned(s)
    ensures var s' := Apply(s, a); BeginsOwn(s'.begins, s'.owner)
  {
  }

  lemma StepKeepsAsksOwn(s: State, a: Action)
    requires Enabled(s, a) && ChannelsOwned(s)
    ensures var s' := Apply(s, a); AsksOwn(s'.asks, s'.owner)
  {
  }

  lemma StepKeepsRespondsAim(s: State, a: Action)
    requires Enabled(s, a) && OnePending(s.state, s.holder, s.begins) && ChannelsOwned(s)
    ensures var s' := Apply(s, a); RespondsAim(s'.responds, s'.owner)
  {
  }

  lemma StepKeepsChannels(s: State, a: Action)
    requires Enabled(s, a) && OnePending(s.state, s.holder, s.begins) && ChannelsOwned(s)
    ensures ChannelsOwned(Apply(s, a))
  {
    StepKeepsBeginsOwn(s, a);
    StepKeepsAsksOwn(s, a);
    StepKeepsRespondsAim(s, a);
  }

  lemma StepKeepsBuffers(s: State, a: Action)
    requires Enabled(s, a) && ChannelsOwned(s) && BuffersMeant(s.bufs, s.owner)
    ensures var s' := Apply(s, a); BuffersMeant(s'.bufs, s'.owner)
  {
  }

  lemma StepKeepsTimeouts(s: State, a: Action)
    requires Enabled(s, a) && ChannelsOwned(s) && BuffersMeant(s.bufs, s.owner) && TimeoutsLate(s.bufs, s.begins)
    ensures var s' := Apply(s, a); TimeoutsLate(s'.bufs, s'.begins)
  {
  }

  lemma StepKeepsResults(s: State, a: Action)
    requires Enabled(s, a) && Inv(s)
    ensures ResultsFresh(Apply(s, a).begins)
  {
  }

  lemma StepKeepsInv(s: State, a: Action)
    requires Enabled(s, a) && Inv(s)
    ensures Inv(Apply(s, a))
  {
    StepKeepsOne(s, a);
    StepKeepsChannels(s, a);
    StepKeepsBuffers(s, a);
    StepKeepsTimeouts(s, a);
    StepKeepsResults(s, a);
  }

  // ----- whole runs -----

  ghost predicate IsRun(states: seq<State>, acts: seq<Action>) {
    && |states| == |acts| + 1 && states[0] == Init()
    && forall i | 0 <= i < |acts| :: Enabled(states[i], acts[i]) && states[i + 1] == Apply(states[i], acts[i])
  }

  lemma {:induction false} RunKeepsInv(states: seq<State>, acts: seq<Action>, n: nat)
    requires IsRun(states, acts) && n < |states|
    ensures Inv(states[n])
  {
    if n > 0 {
      RunKeepsInv(states, acts, n - 1);
      StepKeepsInv(states[n - 1], acts[n - 1]);
    }
  }

  /** Freshness: what Begin returns without an error came from its own requester
      or from a Respond call that saw this very request pending. An answer that
      races with a later Begin never feeds the later one. */
  lemma ApprovalIsFresh(states: seq<State>, acts: seq<Action>, n: nat, b: Bid)
    requires IsRun(states, acts) && n < |states| && b in states[n].begins
    requires states[n].begins[b].Returned? && states[n].begins[b].result.Ok?
    ensures var src := states[n].begins[b].result.value.source;
            src == FromRequester(b) || (src.FromRespond? && src.saw == Some(b))
  {
    RunKeepsInv(states, acts, n);
  }

  /** At most one request is pending at a time, and it is the one whose channel
      Respond would use. */
  lemma OneRequestAtATime(states: seq<State>, acts: seq<Action>, n: nat, b: Bid, c: Bid)
    requires IsRun(states, acts) && n < |states| && b in states[n].begins && c in states[n].begins
    requires Inside(states[n].begins[b]) && Inside(states[n].begins[c])
    ensures b == c && states[n].holder == Some(b)
    ensures states[n].responseCh in states[n].owner && states[n].owner[states[n].responseCh] == b
  {
    RunKeepsInv(states, acts, n);
  }

  ghost predicate NoRespond(acts: seq<Action>, n: nat) {
    forall i | 0 <= i < n && i < |acts| :: !acts[i].RespondCall?
  }

  /** No answer comes from a Respond call. */
  ghost predicate NoAnswers(s: State) {
    && s.responds == map[]
    && (forall ch | ch in s.bufs :: !s.bufs[ch].source.FromRespond?)
    && (forall b | b in s.begins && (s.begins[b].Leaving? || s.begins[b].Returned?) && s.begins[b].result.Ok? ::
          !s.begins[b].result.value.source.FromRespond?)
  }

  lemma StepKeepsNoAnswers(s: State, a: Action)
    requires Enabled(s, a) && NoAnswers(s) && !a.RespondCall?
    ensures NoAnswers(Apply(s, a))
  {
  }

  lemma {:induction false} RunKeepsNoAnswers(states: seq<State>, acts: seq<Action>, n: nat)
    requires IsRun(states, acts) && n < |states| && NoRespond(acts, n)
    ensures NoAnswers(states[n])
  {
    if n > 0 {
      RunKeepsNoAnswers(states, acts, n - 1);
      assert !acts[n - 1].RespondCall?;
      StepKeepsNoAnswers(states[n - 1], acts[n - 1]);
    }
  }

  /** The registry makes a PendingApproval of its own for each call and hands it
      to nobody, so what its Begin returns is the requester's answer to it. */
  lemma PrivateApprovalIsRequesters(states: seq<State>, acts: seq<Action>, n: nat, b: Bid)
    requires IsRun(states, acts) && n < |states| && b in states[n].begins && NoRespond(acts, n)
    requires states[n].begins[b].Returned? && states[n].begins[b].result.Ok?
    ensures states[n].begins[b].result.value.source == FromRequester(b)
  {
    ApprovalIsFresh(states, acts, n, b);
    RunKeepsNoAnswers(states, acts, n);
  }

  // ---------------------------------------------------------------------
  // The object, section by section
  // ---------------------------------------------------------------------

  /** A response channel: a buffer of one. */
  class ResponseChan {
    var buffer: Option<Response>

    constructor ()
      ensures buffer == None
    {
      buffer := None;
    }

    method TrySend(r: Response) returns (sent: bool)
      modifies this
      ensures sent == old(buffer).None? && buffer == (if sent then Some(r) else old(buffer))
    {
      sent := buffer.None?;
      if sent {
        buffer := Some(r);
      }
    }
  }

  class PendingApproval {
    var state: ApprovalState
    var responseCh: ResponseChan

    constructor ()
      ensures state == Idle && fresh(responseCh) && responseCh.buffer == None
    {
      state := Idle;
      responseCh := new ResponseChan();
    }

    /** The locked section of Begin: refused unless idle; otherwise the request
        gets a channel that nobody else has ever seen. */
    method Enter() returns (ch: ResponseChan?)
      modifies this
      ensures ch == null <==> !old(state).Idle?
      ensures ch == null ==> unchanged(this)
      ensures ch != null ==> fresh(ch) && ch.buffer == None && responseCh == ch && state == Pending
    {
      if !state.Idle? {
        return null;
      }
      responseCh := new ResponseChan();
      state := Pending;
      return responseCh;
    }

    /** The deadline branch of Begin. */
    method Expire(ch: ResponseChan) returns (timeoutResp: Response)
      modifies this`state, ch
      ensures state == TimedOut && timeoutResp == TIMED_OUT
      ensures ch.buffer == if old(ch.buffer).None? then Some(TIMED_OUT) else old(ch.buffer)
    {
      state := TimedOut;
      timeoutResp := TIMED_OUT;
      var _ := ch.TrySend(timeoutResp);
    }

    /** The deferred reset of Begin. */
    method Leave()
      modifies this`state
      ensures state == Idle
    {
      state := Idle;
    }

    /** Respond without interference between its check and its send. */
    method Respond(response: Response) returns (sent: bool)
      modifies responseCh
      ensures sent <==> state.Pending? && old(responseCh.buffer).None?
      ensures responseCh.buffer == if sent then Some(response) else old(responseCh.buffer)
    {
      if !state.Pending? {
        return false;
      }
      sent := responseCh.TrySend(response);
    }
  }

  // ---------------------------------------------------------------------
  // The gate in front of a tool body
  // ---------------------------------------------------------------------

  datatype Level = Allow | Ask | Deny | Unknown(name: string)

  datatype Policy = Policy(byDefault: Option<Level>, tools: map<string, Level>,
                           allow: set<string>, ask: set<string>, deny: set<string>)

  function ResolvePolicy(policy: Option<Policy>, name: string, toolDefault: Level): Level {
    match policy
    case None => toolDefault
    case Some(p) =>
      if name in p.tools then p.tools[name]
      else if name in p.allow then Allow
      else if name in p.ask then Ask
      else if name in p.deny then Deny
      else p.byDefault.GetOr(toolDefault)
  }

  /** Elevated mode turns Ask into Allow until it expires; it changes nothing else. */
  function Elevate(level: Level, until: Option<int>, now: int): Level {
    if level.Ask? && until.Some? && now < until.value then Allow else level
  }

  datatype ToolError =
    | NotFound | RateLimited | PolicyDenied | NoRequester | ApprovalError(e: BeginError) | UserDenied(reason: string)
    | BodyError(text: string)

  datatype Call = Call(name: string, args: string)

  datatype Tool = Tool(defaultPolicy: Level, body: string -> Result<Messages.Output, string>)

  /** The environment of one Execute call; `approval` is what Begin returns if
      the call gets that far. */
  datatype Gate = Gate(withinRate: bool, policy: Option<Policy>, elevated: Option<Option<int>>, now: int,
                       hasRequester: bool, approval: Result<Message, BeginError>)

  function EffectiveLevel(g: Gate, name: string, toolDefault: Level): Level {
    var level := ResolvePolicy(g.policy, name, toolDefault);
    if g.elevated.Some? then Elevate(level, g.elevated.value, g.now) else level
  }

  class Registry {
    var tools: map<string, Tool>
    ghost var executed: seq<Call>   // the tool bodies that were run

    constructor ()
      ensures tools == map[] && executed == []
    {
      tools, executed := map[], [];
    }

    /** The body runs exactly when the tool exists, the rate limit admits it and
        its effective level is Allow, or Ask with an approval of this request. */
    method Execute(call: Call, g: Gate) returns (res: Result<Messages.Output, ToolError>)
      modifies this`executed
      ensures call.name !in tools ==> res == Err(NotFound)
      ensures call.name in tools && !g.withinRate ==> res == Err(RateLimited)
      ensures executed == old(executed)
           || (executed == old(executed) + [call] && call.name in tools && g.withinRate
               && var level := EffectiveLevel(g, call.name, tools[call.name].defaultPolicy);
                  || level.Allow?
                  || (level.Ask? && g.hasRequester && g.approval.Ok? && g.approval.value.response.approved))
      ensures call.name in tools && g.withinRate ==>
                match EffectiveLevel(g, call.name, tools[call.name].defaultPolicy)
                case Allow => executed == old(executed) + [call]
                case Ask =>
                  if !g.hasRequester then res == Err(NoRequester)
                  else if g.approval.Err? then res == Err(ApprovalError(g.approval.error))
                  else if !g.approval.value.response.approved
                  then res == Err(UserDenied(g.approval.value.response.reason))
                  else executed == old(executed) + [call]
                case Deny => res == Err(PolicyDenied)
                case Unknown(_) => res == Err(PolicyDenied)
      ensures executed != old(executed) ==>
                match tools[call.name].body(call.args)
                case Ok(out) => res == Ok(out)
                case Err(text) => res == Err(BodyError(text))
      ensures executed == old(executed) ==> res.Err?
    {
      if call.name !in tools {
        return Err(NotFound);
      }
      var t := tools[call.name];
      if !g.withinRate {
        return Err(RateLimited);
      }
      var level := ResolvePolicy(g.policy, call.name, t.defaultPolicy);
      if g.elevated.Some? {
        level := Elevate(level, g.elevated.value, g.now);
      }
      match level {
        case Deny => return Err(PolicyDenied);
        case Unknown(_) => return Err(PolicyDenied);
        case Allow =>
        case Ask =>
          if !g.hasRequester {
            return Err(NoRequester);
          }
          if g.approval.Err? {
            return Err(ApprovalError(g.approval.error));
          }
          if !g.approval.value.response.approved {
            return Err(UserDenied(g.approval.value.response.reason));
          }
      }
      executed := executed + [call];
      var out := t.body(call.args);
      match out {
        case Ok(o) => return Ok(o);
        case Err(text) => return Err(BodyError(text));
      }
    }
  }

  /** At level Ask the body runs only after the requester approved that very
      request: the approval that opens the gate is the result of the call's own
      private Begin, in whatever way its goroutines interleave. */
  method ExecuteWithApproval(reg: Registry, call: Call, g: Gate,
                             ghost states: seq<State>, ghost acts: seq<Action>, ghost b: Bid)
    returns (res: Result<Messages.Output, ToolError>)
    requires IsRun(states, acts) && NoRespond(acts, |acts|)
    requires b in states[|acts|].begins && states[|acts|].begins[b] == Returned(g.approval)
    modifies reg`executed
    ensures reg.executed != old(reg.executed) ==> call.name in reg.tools
    ensures reg.executed != old(reg.executed)
            && EffectiveLevel(g, call.name, reg.tools[call.name].defaultPolicy).Ask? ==>
              && g.approval.Ok? && g.approval.value.response.approved
              && g.approval.value.source == FromRequester(b)
  {
    if g.approval.Ok? {
      PrivateApprovalIsRequesters(states, acts, |acts|, b);
    }
    res := reg.Execute(call, g);
  }
}
