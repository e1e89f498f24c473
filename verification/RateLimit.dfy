/** The sliding-window rate limiter (internal/security/ratelimit.go). Times are
  integers; every call brings the clock reading that it takes. */
module RateLimit {
  import opened Options

  datatype Template = Template(window: int, limit: int)

  /** One call on the limiter. Allow is Ask with n = 1. */
  datatype Op = Ask(session: string, kind: string, n: int, now: int) | Remove(session: string)

  function BucketKey(session: string, kind: string): string { session + ":" + kind }

  /** Kinds hold no colon, so a key names one session and one kind. */
  predicate PlainKinds(tm: map<string, Template>) {
    forall k | k in tm :: ':' !in k && tm[k].limit >= 0 && tm[k].window >= 0
  }

  lemma LastColon(s: string, k: string)
    requires ':' !in k
    ensures BucketKey(s, k)[|s|] == ':' && forall i | |s| < i < |BucketKey(s, k)| :: BucketKey(s, k)[i] != ':'
    ensures BucketKey(s, k)[..|s|] == s && BucketKey(s, k)[|s| + 1..] == k
  {
  }

  lemma KeyInjective(s: string, k: string, s': string, k': string)
    requires ':' !in k && ':' !in k'
    ensures BucketKey(s, k) == BucketKey(s', k') <==> s == s' && k == k'
  {
    LastColon(s, k);
    LastColon(s', k');
  }

  // ---------------------------------------------------------------------
  // One bucket
  // ---------------------------------------------------------------------

  function Evicted(events: seq<int>, cutoff: int): seq<int> {
    if events == [] || events[0] >= cutoff then events else Evicted(events[1..], cutoff)
  }

  function Copies(t: int, n: nat): seq<int> { seq(n, _ => t) }

  // ---------------------------------------------------------------------
  // All buckets
  // ---------------------------------------------------------------------

  function EventsAt(b: map<string, seq<int>>, key: string): seq<int> { if key in b then b[key] else [] }

  predicate Touches(tm: map<string, Template>, op: Op) { op.Ask? && op.n > 0 && op.kind in tm }

  function Kept(tm: map<string, Template>, b: map<string, seq<int>>, op: Op): seq<int>
    requires Touches(tm, op)
  {
    Evicted(EventsAt(b, BucketKey(op.session, op.kind)), op.now - tm[op.kind].window)
  }

  predicate Admits(tm: map<string, Template>, b: map<string, seq<int>>, op: Op) {
    Touches(tm, op) ==> |Kept(tm, b, op)| + op.n <= tm[op.kind].limit
  }

  predicate HasPrefix(key: string, prefix: string) { |key| >= |prefix| && key[..|prefix|] == prefix }

  function Step(tm: map<string, Template>, b: map<string, seq<int>>, op: Op): map<string, seq<int>> {
    match op
    case Ask(session, kind, n, now) =>
      if !Touches(tm, op) then b
      else
        b[BucketKey(session, kind) := Kept(tm, b, op) + if Admits(tm, b, op) then Copies(now, n) else []]
    case Remove(session) => map key | key in b && !HasPrefix(key, session + ":") :: b[key]
  }

  lemma StepSets(tm: map<string, Template>, b: map<string, seq<int>>, op: Op, events: seq<int>)
    requires Touches(tm, op)
    requires events == Kept(tm, b, op) + if Admits(tm, b, op) then Copies(op.now, op.n) else []
    ensures var key := BucketKey(op.session, op.kind);
            b[key := EventsAt(b, key)][key := events] == Step(tm, b, op)
  {
  }

  // ---------------------------------------------------------------------
  // The code
  // ---------------------------------------------------------------------

  class Bucket {
    const window: int
    const limit: int
    var events: seq<int>

    constructor (window: int, limit: int)
      ensures this.window == window && this.limit == limit && events == []
    {
      this.window, this.limit, events := window, limit, [];
    }

    method Evict(now: int)
      modifies this
      ensures events == Evicted(old(events), now - window)
    {
      var cutoff := now - window;
      var i := 0;
      while i < |events| && events[i] < cutoff
        invariant i <= |events| && events == old(events)
        invariant Evicted(events[i..], cutoff) == Evicted(events, cutoff)
      {
        assert events[i..][1..] == events[i + 1..];
        i := i + 1;
      }
      if i > 0 {
        events := events[i..];
      }
    }

    /** Allow, once the bucket is found. */
    method TakeOne(now: int) returns (ok: bool)
      modifies this
      ensures ok <==> |Evicted(old(events), now - window)| + 1 <= limit
      ensures events == Evicted(old(events), now - window) + if ok then [now] else []
    {
      Evict(now);
      if |events| >= limit {
        return false;
      }
      events := events + [now];
      return true;
    }

    /** AllowN, once the bucket is found. */
    method TakeN(n: nat, now: int) returns (ok: bool)
      modifies this
      ensures ok <==> |Evicted(old(events), now - window)| + n <= limit
      ensures events == Evicted(old(events), now - window) + if ok then Copies(now, n) else []
    {
      Evict(now);
      if |events| + n > limit {
        return false;
      }
      Append(n, now);
      return true;
    }

    method Append(n: nat, now: int)
      modifies this
      ensures events == old(events) + Copies(now, n)
    {
      for j := 0 to n
        invariant events == old(events) + Copies(now, j)
      {
        events := events + [now];
      }
    }
  }

  datatype Config = Config(maxSessions: int, messagesPerMin: int, toolCallsPerMin: int, tokensPerHour: int)

  const MINUTE := 60_000_000_000
  const HOUR := 60 * MINUTE

  function Templates(cfg: Config): (tm: map<string, Template>)
    ensures PlainKinds(tm) && "message" in tm && "tool_call" in tm
    ensures "token" in tm <==> cfg.tokensPerHour > 0
  {
    var messages := if cfg.messagesPerMin <= 0 then 200 else cfg.messagesPerMin;
    var tools := if cfg.toolCallsPerMin <= 0 then 500 else cfg.toolCallsPerMin;
    var tm := map["message" := Template(MINUTE, messages), "tool_call" := Template(MINUTE, tools)];
    if cfg.tokensPerHour > 0 then tm["token" := Template(HOUR, cfg.tokensPerHour)] else tm
  }

  class RateLimiter {
    const templates: map<string, Template>
    var buckets: map<string, Bucket>
    ghost var view: map<string, seq<int>>
    ghost var Repr: set<Bucket>

    constructor (cfg: Config)
      ensures Valid() && fresh(Repr) && view == map[] && templates == Templates(cfg)
    {
      templates := Templates(cfg);
      buckets, view, Repr := map[], map[], {};
    }

    ghost predicate Valid()
      reads this, Repr
    {
      && (forall key | key in buckets :: buckets[key] in Repr)
      && (forall key | key in buckets && key in view :: buckets[key].events == view[key])
      && Wired()
    }

    /** Valid, except perhaps that the view of this key lags behind. */
    ghost predicate ValidBut(lagging: string)
      reads this, Repr
    {
      && (forall key | key in buckets :: buckets[key] in Repr)
      && (forall key | key in buckets && key in view && key != lagging :: buckets[key].events == view[key])
      && Wired()
    }

    /** One bucket object per key, made from the template of its kind. */
    ghost predicate Wired()
      reads this
    {
      && PlainKinds(templates)
      && buckets.Keys == view.Keys
      && (forall key, key' | key in buckets && key' in buckets && key != key' :: buckets[key] != buckets[key'])
      && (forall s, k | k in templates && BucketKey(s, k) in buckets ::
            && buckets[BucketKey(s, k)].window == templates[k].window
            && buckets[BucketKey(s, k)].limit == templates[k].limit)
    }

    method GetOrCreateBucket(session: string, kind: string) returns (b: Bucket?)
      requires Valid()
      modifies this`buckets, this`view, this`Repr
      ensures Valid() && fresh(Repr - old(Repr))
      ensures b == null <==> kind !in templates
      ensures b == null ==> view == old(view)
      ensures b != null ==>
        var key := BucketKey(session, kind);
        key in buckets && b == buckets[key] && view == old(view)[key := EventsAt(old(view), key)]
    {
      if kind !in templates {
        return null;
      }
      var tmpl := templates[kind];
      var key := BucketKey(session, kind);
      if key !in buckets {
        var fresh' := new Bucket(tmpl.window, tmpl.limit);
        buckets, view, Repr := buckets[key := fresh'], view[key := []], Repr + {fresh'};
        forall s, k | k in templates && BucketKey(s, k) == key ensures k == kind {
          KeyInjective(s, k, session, kind);
        }
      }
      return buckets[key];
    }

    method Allow(session: string, kind: string, now: int) returns (ok: bool)
      requires Valid()
      modifies this`buckets, this`view, this`Repr, Repr
      ensures Valid() && fresh(Repr - old(Repr))
      ensures view == Step(templates, old(view), Ask(session, kind, 1, now))
      ensures ok <==> Admits(templates, old(view), Ask(session, kind, 1, now))
    {
      var b := GetOrCreateBucket(session, kind);
      if b == null {
        return true;
      }
      ghost var op := Ask(session, kind, 1, now);
      assert Copies(now, 1) == [now];
      ok := b.TakeOne(now);
      Note(b, BucketKey(session, kind));
      StepSets(templates, old(view), op, b.events);
    }

    method AllowN(session: string, kind: string, n: int, now: int) returns (ok: bool)
      requires Valid()
      modifies this`buckets, this`view, this`Repr, Repr
      ensures Valid() && fresh(Repr - old(Repr))
      ensures view == Step(templates, old(view), Ask(session, kind, n, now))
      ensures ok <==> Admits(templates, old(view), Ask(session, kind, n, now))
    {
      if n <= 0 {
        return true;
      }
      var b := GetOrCreateBucket(session, kind);
      if b == null {
        return true;
      }
      ghost var op := Ask(session, kind, n, now);
      ok := b.TakeN(n, now);
      Note(b, BucketKey(session, kind));
      StepSets(templates, old(view), op, b.events);
    }

    /** The view follows the one bucket that has changed. */
    ghost method Note(b: Bucket, key: string)
      requires ValidBut(key) && key in buckets && b == buckets[key]
      modifies this`view
      ensures Valid() && view == old(view)[key := b.events]
    {
      view := view[key := b.events];
    }

    method DeleteKey(key: string)
      requires Valid()
      modifies this`buckets, this`view
      ensures Valid() && view == old(view) - {key}
    {
      buckets, view := buckets - {key}, view - {key};
    }

    /** Every key with the prefix goes, whichever order the map is ranged over. */
    method RemoveSession(session: string)
      requires Valid()
      modifies this`buckets, this`view
      ensures Valid() && view == Step(templates, old(view), Remove(session))
    {
      var prefix := session + ":";
      var todo := buckets.Keys;
      while todo != {}
        invariant Valid() && todo <= old(view).Keys
        invariant forall key :: key in view <==> key in old(view) && (key in todo || !HasPrefix(key, prefix))
        invariant forall key | key in view :: view[key] == old(view)[key]
        decreases todo
      {
        var key :| key in todo;
        if HasPrefix(key, prefix) {
          DeleteKey(key);
        }
        todo := todo - {key};
      }
    }
  }

  // ---------------------------------------------------------------------
  // Which buckets RemoveSession removes
  // ---------------------------------------------------------------------

  lemma PrefixReaches(session: string, s: string, k: string)
    requires ':' !in k
    ensures HasPrefix(BucketKey(s, k), session + ":") <==> s == session || HasPrefix(s, session + ":")
  {
    var key, prefix := BucketKey(s, k), session + ":";
    LastColon(s, k);
    if HasPrefix(key, prefix) {
      assert key[|session|] == prefix[|session|] == ':';
      assert |session| <= |s|;
      assert key[..|session|] == prefix[..|session|] == session;
      if |session| < |s| {
        assert s[..|prefix|] == key[..|prefix|];
      }
    }
    if HasPrefix(s, prefix) {
      assert key[..|prefix|] == s[..|prefix|];
    }
    if s == session {
      assert key[..|prefix|] == prefix;
    }
  }

  predicate Clears(op: Op, s: string) { op.Remove? && (s == op.session || HasPrefix(s, op.session + ":")) }

  /** RemoveSession removes the buckets of the session, and with them those of every
      session whose ID goes on with a colon after this one; it removes no other
      bucket and changes none. */
  lemma RemoveReaches(tm: map<string, Template>, b: map<string, seq<int>>, session: string, s: string, k: string)
    requires ':' !in k
    ensures var b', key := Step(tm, b, Remove(session)), BucketKey(s, k);
      && (key in b' <==> key in b && s != session && !HasPrefix(s, session + ":"))
      && (key in b' ==> b'[key] == b[key])
  {
    PrefixReaches(session, s, k);
  }

  /** The exception is real: removing session a removes the bucket of session a:b. */
  lemma RemovingAlsoRemoves()
    ensures var tm, key := Templates(Config(0, 0, 0, 0)), BucketKey("a:b", "message");
            var asked := Ask("a:b", "message", 1, 0);
      && key in After(tm, [asked]) && After(tm, [asked])[key] == [0]
      && key !in After(tm, [asked, Remove("a")])
  {
    var tm, key := Templates(Config(0, 0, 0, 0)), BucketKey("a:b", "message");
    var asked := Ask("a:b", "message", 1, 0);
    assert [asked][..0] == [] && [asked, Remove("a")][..1] == [asked];
    assert Evicted([], 0 - tm["message"].window) == [] && Copies(0, 1) == [0];
    assert After(tm, [asked]) == Step(tm, map[], asked);
    assert HasPrefix("a:b", "a" + ":");
    RemoveReaches(tm, After(tm, [asked]), "a", "a:b", "message");
  }

  // ---------------------------------------------------------------------
  // Runs
  // ---------------------------------------------------------------------

  function After(tm: map<string, Template>, ops: seq<Op>): map<string, seq<int>> {
    if ops == [] then map[] else Step(tm, After(tm, ops[..|ops| - 1]), ops[|ops| - 1])
  }

  predicate About(tm: map<string, Template>, op: Op, s: string, k: string) {
    Touches(tm, op) && op.session == s && op.kind == k
  }

  /** The admitted events of a session and kind since it was last removed, one
      entry per event. */
  function Log(tm: map<string, Template>, ops: seq<Op>, s: string, k: string): seq<int> {
    if ops == [] then []
    else
      var init, op := ops[..|ops| - 1], ops[|ops| - 1];
      if Clears(op, s) then []
      else if About(tm, op, s, k) && Admits(tm, After(tm, init), op) then Log(tm, init, s, k) + Copies(op.now, op.n)
      else Log(tm, init, s, k)
  }

  /** The cutoff of the last call about a session and kind. */
  function Cutoff(tm: map<string, Template>, ops: seq<Op>, s: string, k: string): Option<int> {
    if ops == [] then None
    else
      var op := ops[|ops| - 1];
      if Clears(op, s) then None
      else if About(tm, op, s, k) then Some(op.now - tm[k].window)
      else Cutoff(tm, ops[..|ops| - 1], s, k)
  }

  /** The clock never goes back. */
  predicate Clocked(ops: seq<Op>) {
    forall i, j | 0 <= i < j < |ops| && ops[i].Ask? && ops[j].Ask? :: ops[i].now <= ops[j].now
  }

  predicate Sorted(log: seq<int>) { forall i, j | 0 <= i < j < |log| :: log[i] <= log[j] }

  /** The entries not older than c. */
  function Since(log: seq<int>, c: int): seq<int> {
    if log == [] then []
    else Since(log[..|log| - 1], c) + if log[|log| - 1] >= c then [log[|log| - 1]] else []
  }

  /** How many entries lie in the closed interval from a to b. */
  function Within(log: seq<int>, a: int, b: int): nat {
    if log == [] then 0
    else Within(log[..|log| - 1], a, b) + if a <= log[|log| - 1] <= b then 1 else 0
  }

  lemma {:induction false} SinceAppend(x: seq<int>, y: seq<int>, c: int)
    ensures Since(x + y, c) == Since(x, c) + Since(y, c)
    decreases |y|
  {
    if y == [] {
      assert x + y == x;
    } else {
      var init := y[..|y| - 1];
      SinceAppend(x, init, c);
      assert (x + y)[..|x + y| - 1] == x + init;
    }
  }

  lemma {:induction false} WithinAppend(x: seq<int>, y: seq<int>, a: int, b: int)
    ensures Within(x + y, a, b) == Within(x, a, b) + Within(y, a, b)
    decreases |y|
  {
    if y == [] {
      assert x + y == x;
    } else {
      WithinAppend(x, y[..|y| - 1], a, b);
      assert (x + y)[..|x + y| - 1] == x + y[..|y| - 1];
    }
  }

  lemma {:induction false} OfCopies(t: int, n: nat, a: int, b: int)
    ensures Within(Copies(t, n), a, b) == if a <= t <= b then n else 0
    ensures Since(Copies(t, n), a) == if a <= t then Copies(t, n) else []
  {
    if n > 0 {
      assert Copies(t, n)[..n - 1] == Copies(t, n - 1);
      OfCopies(t, n - 1, a, b);
      assert Copies(t, n - 1) + [t] == Copies(t, n);
    }
  }

  lemma {:induction false} WithinIsRecent(log: seq<int>, a: int, b: int, c: int)
    requires a >= c
    ensures Within(log, a, b) <= |Since(log, c)|
    decreases |log|
  {
    if log != [] {
      WithinIsRecent(log[..|log| - 1], a, b, c);
    }
  }

  lemma {:induction false} SinceLater(log: seq<int>, c: int, c': int)
    requires c <= c'
    ensures Since(Since(log, c), c') == Since(log, c')
    decreases |log|
  {
    if log != [] {
      var init, last := log[..|log| - 1], log[|log| - 1];
      SinceLater(init, c, c');
      SinceAppend(Since(init, c), if last >= c then [last] else [], c');
      assert Since([last], c') == if last >= c' then [last] else [];
    }
  }

  lemma {:induction false} SinceAll(log: seq<int>, c: int)
    requires forall i | 0 <= i < |log| :: log[i] >= c
    ensures Since(log, c) == log
    decreases |log|
  {
    if log != [] {
      SinceAll(log[..|log| - 1], c);
    }
  }

  /** Dropping from the front is dropping the old, when the events are in order. */
  lemma {:induction false} EvictedIsSince(events: seq<int>, c: int)
    requires Sorted(events)
    ensures Evicted(events, c) == Since(events, c)
    decreases |events|
  {
    if events == [] {
    } else if events[0] >= c {
      SinceAll(events, c);
    } else {
      EvictedIsSince(events[1..], c);
      assert events == [events[0]] + events[1..];
      SinceAppend([events[0]], events[1..], c);
      assert Since([events[0]], c) == [];
    }
  }

  lemma {:induction false} SinceSorted(log: seq<int>, c: int)
    requires Sorted(log)
    ensures Sorted(Since(log, c)) && forall i | 0 <= i < |Since(log, c)| :: Since(log, c)[i] <= log[|log| - 1]
    decreases |log|
  {
    if log != [] {
      SinceSorted(log[..|log| - 1], c);
    }
  }

  /** How many entries lie in the closed interval of length w from a on. */
  function InWindow(log: seq<int>, a: int, w: int): nat { Within(log, a, a + w) }

  /** The window bound, for every closed interval as long as the window. */
  ghost predicate Bounded(log: seq<int>, t: Template) {
    forall a :: InWindow(log, a, t.window) <= t.limit
  }

  ghost predicate Ordered(log: seq<int>, now: int) {
    Sorted(log) && forall i | 0 <= i < |log| :: log[i] <= now
  }

  /** What a bucket's events are to the log of what it has admitted. */
  ghost predicate Faithful(log: seq<int>, cutoff: Option<int>, events: seq<int>, t: Template, now: int) {
    && Ordered(log, now)
    && (cutoff.Some? ==> cutoff.value <= now - t.window)
    && events == (if cutoff.Some? then Since(log, cutoff.value) else [])
    && (cutoff.None? ==> log == [])
    && Bounded(log, t)
  }

  lemma FaithfulEvicts(log: seq<int>, cutoff: Option<int>, events: seq<int>, t: Template, now: int)
    requires Faithful(log, cutoff, events, t, now)
    ensures Evicted(events, now - t.window) == Since(log, now - t.window)
  {
    if cutoff.Some? {
      SinceSorted(log, cutoff.value);
      EvictedIsSince(events, now - t.window);
      SinceLater(log, cutoff.value, now - t.window);
    }
  }

  /** Admitting n more events that fit keeps the window bound. */
  lemma AdmissionStaysBounded(log: seq<int>, t: Template, now: int, n: nat, log': seq<int>)
    requires Bounded(log, t) && |Since(log, now - t.window)| + n <= t.limit
    requires log' == log + Copies(now, n)
    ensures Bounded(log', t)
  {
    forall a ensures InWindow(log', a, t.window) <= t.limit {
      WithinAppend(log, Copies(now, n), a, a + t.window);
      OfCopies(now, n, a, a + t.window);
      assert InWindow(log, a, t.window) <= t.limit;
      if a <= now <= a + t.window {
        WithinIsRecent(log, a, a + t.window, now - t.window);
      }
    }
  }

  lemma FaithfulDenied(log: seq<int>, cutoff: Option<int>, events: seq<int>, t: Template, now: int, kept: seq<int>)
    requires Faithful(log, cutoff, events, t, now) && kept == Evicted(events, now - t.window)
    ensures Faithful(log, Some(now - t.window), kept, t, now)
  {
    FaithfulEvicts(log, cutoff, events, t, now);
  }

  lemma CopiesStayOrdered(log: seq<int>, now: int, n: nat, log': seq<int>)
    requires Ordered(log, now) && log' == log + Copies(now, n)
    ensures Ordered(log', now)
  {
  }

  lemma BufferAdmits(log: seq<int>, now: int, n: nat, c: int, log': seq<int>)
    requires c <= now && log' == log + Copies(now, n)
    ensures Since(log, c) + Copies(now, n) == Since(log', c)
  {
    SinceAppend(log, Copies(now, n), c);
    OfCopies(now, n, c, now);
  }

  lemma FaithfulAdmitted(log: seq<int>, cutoff: Option<int>, events: seq<int>, t: Template, now: int, n: nat,
                         log': seq<int>, events': seq<int>)
    requires Faithful(log, cutoff, events, t, now) && t.window >= 0
    requires |Evicted(events, now - t.window)| + n <= t.limit
    requires log' == log + Copies(now, n) && events' == Evicted(events, now - t.window) + Copies(now, n)
    ensures Faithful(log', Some(now - t.window), events', t, now)
  {
    var c := now - t.window;
    FaithfulEvicts(log, cutoff, events, t, now);
    assert Evicted(events, c) == Since(log, c);
    AdmissionStaysBounded(log, t, now, n, log');
    CopiesStayOrdered(log, now, n, log');
    BufferAdmits(log, now, n, c, log');
    assert events' == Since(log', c);
  }

  lemma FaithfulLater(log: seq<int>, cutoff: Option<int>, events: seq<int>, t: Template, now: int, later: int)
    requires Faithful(log, cutoff, events, t, now) && now <= later
    ensures Faithful(log, cutoff, events, t, later)
  {
  }

  ghost predicate NotAfter(ops: seq<Op>, now: int) {
    forall i | 0 <= i < |ops| && ops[i].Ask? :: ops[i].now <= now
  }

  /** Another session's call, or another kind's, changes nothing here. */
  lemma OthersLeaveAlone(tm: map<string, Template>, b: map<string, seq<int>>, op: Op, s: string, k: string)
    requires PlainKinds(tm) && k in tm && !About(tm, op, s, k) && !Clears(op, s)
    ensures EventsAt(Step(tm, b, op), BucketKey(s, k)) == EventsAt(b, BucketKey(s, k))
  {
    match op {
      case Ask(session, kind, n, now) =>
        if Touches(tm, op) {
          KeyInjective(s, k, session, kind);
        }
      case Remove(session) => PrefixReaches(session, s, k);
    }
  }

  /** What the calls so far have made of one bucket. */
  datatype View = View(log: seq<int>, cutoff: Option<int>, events: seq<int>)

  function ViewOf(tm: map<string, Template>, ops: seq<Op>, s: string, k: string): View
    requires k in tm
  {
    View(Log(tm, ops, s, k), Cutoff(tm, ops, s, k), EventsAt(After(tm, ops), BucketKey(s, k)))
  }

  ghost predicate Holds(v: View, t: Template, now: int) { Faithful(v.log, v.cutoff, v.events, t, now) }

  ghost predicate Tracks(tm: map<string, Template>, ops: seq<Op>, s: string, k: string, now: int)
    requires k in tm
  {
    Holds(ViewOf(tm, ops, s, k), tm[k], now)
  }

  lemma AfterSnoc(tm: map<string, Template>, init: seq<Op>, op: Op, s: string, k: string)
    requires k in tm
    ensures After(tm, init + [op]) == Step(tm, After(tm, init), op)
    ensures Log(tm, init + [op], s, k)
         == if Clears(op, s) then []
            else if About(tm, op, s, k) && Admits(tm, After(tm, init), op)
              then Log(tm, init, s, k) + Copies(op.now, op.n)
            else Log(tm, init, s, k)
    ensures Cutoff(tm, init + [op], s, k)
         == if Clears(op, s) then None
            else if About(tm, op, s, k) then Some(op.now - tm[k].window)
            else Cutoff(tm, init, s, k)
  {
    assert (init + [op])[..|init|] == init;
  }

  /** What one call for n events does to the log, cutoff and bucket it is about. */
  function Asked(v: View, t: Template, now: int, n: nat): View {
    var kept := Evicted(v.events, now - t.window);
    if |kept| + n <= t.limit then View(v.log + Copies(now, n), Some(now - t.window), kept + Copies(now, n))
    else View(v.log, Some(now - t.window), kept)
  }

  lemma AboutSnoc(tm: map<string, Template>, init: seq<Op>, op: Op, s: string, k: string)
    requires k in tm && About(tm, op, s, k)
    ensures ViewOf(tm, init + [op], s, k) == Asked(ViewOf(tm, init, s, k), tm[k], op.now, op.n)
  {
    AfterSnoc(tm, init, op, s, k);
  }

  lemma AskedHolds(v: View, t: Template, now: int, n: nat)
    requires Holds(v, t, now) && t.window >= 0
    ensures Holds(Asked(v, t, now, n), t, now)
  {
    var v' := Asked(v, t, now, n);
    if |Evicted(v.events, now - t.window)| + n <= t.limit {
      FaithfulAdmitted(v.log, v.cutoff, v.events, t, now, n, v'.log, v'.events);
    } else {
      FaithfulDenied(v.log, v.cutoff, v.events, t, now, v'.events);
    }
  }

  lemma TracksAbout(tm: map<string, Template>, init: seq<Op>, op: Op, s: string, k: string)
    requires PlainKinds(tm) && k in tm && About(tm, op, s, k) && Tracks(tm, init, s, k, op.now)
    ensures Tracks(tm, init + [op], s, k, op.now)
  {
    AboutSnoc(tm, init, op, s, k);
    AskedHolds(ViewOf(tm, init, s, k), tm[k], op.now, op.n);
  }

  lemma TracksOther(tm: map<string, Template>, init: seq<Op>, op: Op, s: string, k: string, now: int)
    requires PlainKinds(tm) && k in tm && !About(tm, op, s, k) && !Clears(op, s) && Tracks(tm, init, s, k, now)
    ensures Tracks(tm, init + [op], s, k, now)
  {
    AfterSnoc(tm, init, op, s, k);
    OthersLeaveAlone(tm, After(tm, init), op, s, k);
  }

  lemma TracksCleared(tm: map<string, Template>, init: seq<Op>, op: Op, s: string, k: string, now: int)
    requires PlainKinds(tm) && k in tm && Clears(op, s)
    ensures Tracks(tm, init + [op], s, k, now)
  {
    AfterSnoc(tm, init, op, s, k);
    PrefixReaches(op.session, s, k);
    NothingIsBounded(tm[k]);
  }

  lemma NothingIsBounded(t: Template)
    requires t.limit >= 0
    ensures Bounded([], t)
  {
    forall a ensures InWindow([], a, t.window) <= t.limit {
      assert Within([], a, a + t.window) == 0;
    }
  }

  lemma {:induction false} AlwaysFaithful(tm: map<string, Template>, ops: seq<Op>, s: string, k: string, now: int)
    requires PlainKinds(tm) && k in tm && Clocked(ops) && NotAfter(ops, now)
    ensures Tracks(tm, ops, s, k, now)
    decreases |ops|
  {
    if ops == [] {
      NothingIsBounded(tm[k]);
    } else {
      var init, op := ops[..|ops| - 1], ops[|ops| - 1];
      assert ops == init + [op];
      if Clears(op, s) {
        TracksCleared(tm, init, op, s, k, now);
      } else if About(tm, op, s, k) {
        AlwaysFaithful(tm, init, s, k, op.now);
        TracksAbout(tm, init, op, s, k);
        FaithfulLater(Log(tm, ops, s, k), Cutoff(tm, ops, s, k),
                      EventsAt(After(tm, ops), BucketKey(s, k)), tm[k], op.now, now);
      } else {
        AlwaysFaithful(tm, init, s, k, now);
        TracksOther(tm, init, op, s, k, now);
      }
    }
  }

  /** For any calls on a clock that never goes back: since a session was last
      removed, every closed interval as long as the window holds at most the limit
      of admitted events, and the buffer is exactly the admitted events not older
      than the cutoff of the last call about it. */
  lemma SlidingWindow(tm: map<string, Template>, ops: seq<Op>, s: string, k: string)
    requires PlainKinds(tm) && k in tm && Clocked(ops)
    ensures forall a :: InWindow(Log(tm, ops, s, k), a, tm[k].window) <= tm[k].limit
    ensures var events, c := EventsAt(After(tm, ops), BucketKey(s, k)), Cutoff(tm, ops, s, k);
            events == if c.Some? then Since(Log(tm, ops, s, k), c.value) else []
  {
    var now := Latest(ops);
    AlwaysFaithful(tm, ops, s, k, now);
  }

  lemma {:induction false} Latest(ops: seq<Op>) returns (now: int)
    ensures NotAfter(ops, now)
  {
    if ops == [] {
      now := 0;
    } else {
      now := Latest(ops[..|ops| - 1]);
      var op := ops[|ops| - 1];
      if op.Ask? && op.now > now {
        now := op.now;
      }
    }
  }
}
