/** The router object: what Submit checks before the send, and the critical
  sections of Start and Stop (internal/router/router.go). */
module Routers {
  import opened Options
  import opened RateLimit
  import opened RouterInbox
  import opened Validation

  datatype SubmitError = RouterStopped | Invalid(error: ValidationError) | RateLimited | InboxFull

  /** A message as Submit looks at it: whether it reads as the answer to an approval
      and, if so, whether that approval was still open; its raw size and tokens; its
      session; and the time at which the rate limiter is asked. */
  datatype Inbound = Inbound(env: Envelope, resolves: Option<bool>, size: nat, tokens: seq<Token>,
                             channel: string, chat: string, thread: string, now: int)

  const MESSAGE_KIND := "message"

  function SessionOf(m: Inbound): string { m.channel + ":" + m.chat + ":" + m.thread }

  function AskOf(m: Inbound): Op { Ask(SessionOf(m), MESSAGE_KIND, 1, m.now) }

  class Router {
    const capacity: nat
    const maxMessageSize: int
    const limiter: RateLimiter?
    var inbox: seq<Envelope>
    var stopped: bool
    var closed: bool
    var cancelSet: bool
    var cancelled: bool
    ghost var handled: seq<Envelope>

    /** Outside the write lock the two flags agree. */
    ghost predicate Valid()
      reads this
    {
      (stopped <==> closed) && |inbox| <= capacity && (cancelled ==> stopped && cancelSet)
    }

    constructor (inboxSize: int, maxMessageSize: int, limiter: RateLimiter?)
      ensures Valid() && !stopped && inbox == [] && capacity == WithDefaults(0, inboxSize).inboxSize
      ensures this.maxMessageSize == maxMessageSize && this.limiter == limiter
    {
      this.maxMessageSize, this.limiter := maxMessageSize, limiter;
      capacity := WithDefaults(0, inboxSize).inboxSize;
      inbox, stopped, closed, cancelSet, cancelled := [], false, false, false, false;
      handled := [];
    }

    /** Start up to the launch of the pool; an already stopped router ignores it. */
    method Start() returns (launch: bool)
      requires Valid()
      modifies this`cancelSet
      ensures Valid() && launch == !stopped && cancelSet == (old(cancelSet) || launch)
    {
      if stopped {
        return false;
      }
      cancelSet := true;
      return true;
    }

    ghost predicate LimiterValid()
      reads this, limiter, if limiter == null then {} else limiter.Repr
    {
      limiter != null ==> limiter.Valid()
    }

    /** What the rate limiter has counted so far. */
    ghost function Counted(): map<string, seq<int>>
      reads this, limiter
    {
      if limiter == null then map[] else limiter.view
    }

    /** The message comes as far as the rate limiter. */
    ghost predicate Passes(m: Inbound)
      reads this
    {
      !stopped && m.resolves != Some(true) && RawVerdict(m.size, m.tokens, maxMessageSize).None?
    }

    /** The limiter, if there is one, lets it through. */
    ghost predicate Within(m: Inbound)
      reads this, limiter
    {
      limiter == null || Admits(limiter.templates, limiter.view, AskOf(m))
    }

    method ValidateRaw(m: Inbound) returns (err: Option<ValidationError>)
      ensures err == RawVerdict(m.size, m.tokens, maxMessageSize)
    {
      if m.size > 0 {
        err := ValidateMessageSize(m.size, maxMessageSize);
        if err.Some? {
          return;
        }
        err := ValidateJSONDepth(m.tokens, 0);
        return;
      }
      return None;
    }

    /** The check with the rate limiter, which counts the message if it admits it. */
    method AskLimiter(m: Inbound) returns (ok: bool)
      requires LimiterValid()
      modifies limiter, if limiter == null then {} else limiter.Repr
      ensures LimiterValid() && ok == old(Within(m))
      ensures limiter != null ==> limiter.view == Step(limiter.templates, old(limiter.view), AskOf(m))
    {
      if limiter == null {
        return true;
      }
      ok := limiter.Allow(m.channel + ":" + m.chat + ":" + m.thread, MESSAGE_KIND, m.now);
    }

    /** Submit under the read lock. An answer to an open approval never enters the
        queue; an answer to no open approval is a message like any other. Only a
        message that passes the checks is counted by the rate limiter, and it stays
        counted when the queue turns out to be full. */
    method Submit(m: Inbound) returns (err: Option<SubmitError>)
      requires Valid() && LimiterValid()
      modifies this`inbox, limiter, if limiter == null then {} else limiter.Repr
      ensures Valid() && LimiterValid()
      ensures stopped ==> err == Some(RouterStopped)
      ensures !stopped && m.resolves == Some(true) ==> err == None
      ensures !stopped && m.resolves != Some(true) ==>
                forall e :: err == Some(Invalid(e)) <==> RawVerdict(m.size, m.tokens, maxMessageSize) == Some(e)
      ensures Passes(m) ==> (err == Some(RateLimited) <==> !old(Within(m)))
      ensures Passes(m) && old(Within(m)) ==> err == if |old(inbox)| < capacity then None else Some(InboxFull)
      ensures inbox == if Passes(m) && old(Within(m)) then TrySend(old(inbox), m.env, capacity) else old(inbox)
      ensures Counted() == if limiter != null && Passes(m)
                           then Step(limiter.templates, old(Counted()), AskOf(m)) else old(Counted())
    {
      if stopped {
        return Some(RouterStopped);
      }
      if m.resolves == Some(true) {
        return None;
      }
      var invalid := ValidateRaw(m);
      if invalid.Some? {
        return Some(Invalid(invalid.value));
      }
      var ok := AskLimiter(m);
      if !ok {
        return Some(RateLimited);
      }
      if |inbox| < capacity {
        assert !closed;
        inbox := inbox + [m.env];
        return None;
      }
      return Some(InboxFull);
    }

    /** Stop up to the wait, at most once: later calls change nothing. */
    method CloseInbox()
      requires Valid()
      modifies this
      ensures Valid() && stopped && closed && inbox == old(inbox) && handled == old(handled)
      ensures cancelSet == old(cancelSet) && cancelled == (if old(stopped) then old(cancelled) else cancelSet)
    {
      if stopped {
        return;
      }
      stopped := true;
      closed := true;
      if cancelSet {
        cancelled := true;
      }
    }

    /** A worker's loop over the inbox: on a closed inbox it hands over every
        queued message in order and returns with the inbox empty. */
    method WorkerLoop()
      requires Valid() && closed
      modifies this`inbox, this`handled
      ensures Valid() && inbox == [] && handled == old(handled) + old(inbox)
    {
      while inbox != []
        invariant Valid() && handled + inbox == old(handled) + old(inbox)
        decreases |inbox|
      {
        var env := inbox[0];
        inbox := inbox[1..];
        handled := handled + [env];
      }
    }
  }
}
