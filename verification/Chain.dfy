/** Failover across providers (internal/provider/chain.go). */
module Chain {
  import opened Options
  import opened Health

  const ROLE_FALLBACK := "fallback"

  /** A configured provider, which may be missing. Its key set, if any, is one of
      the chain's profiles, so that two entries may share one. */
  datatype Entry = Entry(name: string, role: string, fallbackFor: seq<string>, health: HealthConfig,
                         auth: Option<nat>, hasProvider: bool)

  datatype CallError = CallError(rateLimit: bool, down: bool, text: string)

  predicate Retryable(e: CallError) { e.rateLimit || e.down }

  // ---------------------------------------------------------------------
  // Candidates
  // ---------------------------------------------------------------------

  predicate Covers(e: Entry, role: string) { e.fallbackFor == [] || role in e.fallbackFor }

  predicate StandsIn(e: Entry, role: string) { e.role != role && e.role == ROLE_FALLBACK && Covers(e, role) }

  method IsFallbackFor(e: Entry, role: string) returns (yes: bool)
    ensures yes <==> Covers(e, role)
  {
    if |e.fallbackFor| == 0 {
      return true;
    }
    for i := 0 to |e.fallbackFor|
      invariant role !in e.fallbackFor[..i]
    {
      if e.fallbackFor[i] == role {
        return true;
      }
    }
    return false;
  }

  predicate IsCandidate(e: Entry, role: string) { e.role == role || StandsIn(e, role) }

  /** Direct matches come before fallbacks; otherwise configured order decides. */
  predicate Before(entries: seq<Entry>, role: string, a: nat, b: nat)
    requires a < |entries| && b < |entries|
  {
    if (entries[a].role == role) == (entries[b].role == role) then a < b else entries[a].role == role
  }

  /** The candidates for a role, each exactly once and in order. */
  ghost predicate CandidatesOf(entries: seq<Entry>, role: string, cands: seq<nat>) {
    && (forall k: nat :: k in cands <==> k < |entries| && IsCandidate(entries[k], role))
    && (forall i | 0 <= i < |cands| :: cands[i] < |entries|)
    && (forall i, j | 0 <= i < j < |cands| :: Before(entries, role, cands[i], cands[j]))
  }

  predicate Rising(s: seq<nat>) { forall i, j | 0 <= i < j < |s| :: s[i] < s[j] }

  /** The positions below n at which p holds, in order. */
  ghost predicate Collects(s: seq<nat>, n: nat, p: nat -> bool) {
    && Rising(s) && (forall j | 0 <= j < |s| :: s[j] < n && p(s[j]))
    && (forall k: nat | k < n && p(k) :: k in s)
  }

  lemma CollectsNext(s: seq<nat>, i: nat, p: nat -> bool, s': seq<nat>)
    requires Collects(s, i, p) && s' == if p(i) then s + [i] else s
    ensures Collects(s', i + 1, p)
  {
    if p(i) {
      forall k: nat | k < i + 1 && p(k) ensures k in s' {
        assert k < i ==> k in s;
        assert s'[|s|] == i;
      }
    }
  }

  function IsDirect(entries: seq<Entry>, role: string): nat -> bool {
    (k: nat) => k < |entries| && entries[k].role == role
  }

  function IsFallback(entries: seq<Entry>, role: string): nat -> bool {
    (k: nat) => k < |entries| && StandsIn(entries[k], role)
  }

  lemma DirectThenFallbacks(entries: seq<Entry>, role: string, direct: seq<nat>, fallbacks: seq<nat>)
    requires Collects(direct, |entries|, IsDirect(entries, role))
    requires Collects(fallbacks, |entries|, IsFallback(entries, role))
    ensures CandidatesOf(entries, role, direct + fallbacks)
  {
    var cands := direct + fallbacks;
    forall k: nat ensures k in cands <==> k < |entries| && IsCandidate(entries[k], role) {
      assert k in cands <==> k in direct || k in fallbacks;
    }
  }

  method Candidates(entries: seq<Entry>, role: string) returns (cands: seq<nat>)
    ensures CandidatesOf(entries, role, cands)
  {
    var direct: seq<nat>, fallbacks: seq<nat> := [], [];
    for i := 0 to |entries|
      invariant Collects(direct, i, IsDirect(entries, role)) && Collects(fallbacks, i, IsFallback(entries, role))
    {
      CollectsNext(direct, i, IsDirect(entries, role), if entries[i].role == role then direct + [i] else direct);
      if entries[i].role == role {
        CollectsNext(fallbacks, i, IsFallback(entries, role), fallbacks);
        direct := direct + [i];
        continue;
      }
      var covers := IsFallbackFor(entries[i], role);
      var standsIn := entries[i].role == ROLE_FALLBACK && covers;
      CollectsNext(fallbacks, i, IsFallback(entries, role), if standsIn then fallbacks + [i] else fallbacks);
      if standsIn {
        fallbacks := fallbacks + [i];
      }
    }
    DirectThenFallbacks(entries, role, direct, fallbacks);
    cands := direct + fallbacks;
  }

  predicate NoRepeats(s: seq<nat>) { forall i, j | 0 <= i < j < |s| :: s[i] != s[j] }

  lemma CandidatesNeverRepeat(entries: seq<Entry>, role: string, cands: seq<nat>)
    requires CandidatesOf(entries, role, cands)
    ensures NoRepeats(cands)
  {
    forall i, j | 0 <= i < j < |cands| ensures cands[i] != cands[j] {
      assert Before(entries, role, cands[i], cands[j]);
    }
  }

  // ---------------------------------------------------------------------
  // Keys
  // ---------------------------------------------------------------------

  datatype Auth = Auth(keys: nat, idx: nat)

  function Turn(a: Auth): Auth { if a.keys <= 1 then a else Auth(a.keys, (a.idx + 1) % a.keys) }

  function Turned(a: Auth, n: nat): Auth { if n == 0 then a else Turn(Turned(a, n - 1)) }

  /** Rotation goes round: n turns advance by n, and as many turns as there are
      keys come back to the same key. */
  lemma {:induction false} TurnedGoesRound(a: Auth, n: nat)
    requires a.idx < a.keys
    ensures Turned(a, n) == Auth(a.keys, (a.idx + n) % a.keys)
    ensures n == a.keys ==> Turned(a, n) == a
  {
    if n > 0 {
      TurnedGoesRound(a, n - 1);
      ModStep(a.idx + n - 1, a.keys);
      if n == a.keys {
        SmallRemainder(a.idx + n, a.keys, 1, a.idx);
      }
    }
  }

  lemma ModStep(x: nat, m: nat)
    requires m > 0
    ensures (x % m + 1) % m == (x + 1) % m
  {
    NextRemainder(x, m, x / m, x % m);
    NextRemainder(x % m, m, 0, x % m);
  }

  lemma NextRemainder(x: nat, m: nat, q: nat, r: nat)
    requires m > 0 && r < m && x == m * q + r
    ensures (x + 1) % m == if r + 1 == m then 0 else r + 1
  {
    if r + 1 < m {
      SmallRemainder(x + 1, m, q, r + 1);
    } else {
      OneMore(m, q);
      SmallRemainder(x + 1, m, q + 1, 0);
    }
  }

  lemma OneMore(m: nat, q: nat)
    ensures m * (q + 1) == m * q + m
  {
  }

  lemma SmallRemainder(x: nat, m: nat, q: nat, r: nat)
    requires m > 0 && r < m && x == m * q + r
    ensures x % m == r
  {
    assert m * (x / m - q) == r - x % m;
    if x / m > q {
      Scale(m, x / m - q);
    } else if x / m < q {
      Scale(m, q - x / m);
    }
  }

  lemma Scale(m: nat, k: nat)
    requires k >= 1
    ensures m * k >= m
  {
  }

  class AuthProfile {
    const keys: seq<string>
    var idx: nat

    constructor (keys: seq<string>)
      requires |keys| > 0
      ensures this.keys == keys && State() == Auth(|keys|, 0)
    {
      this.keys, idx := keys, 0;
    }

    function State(): Auth
      reads this
    {
      Auth(|keys|, idx)
    }

    method Rotate() returns (rotated: bool)
      requires idx < |keys|
      modifies this
      ensures State() == Turn(old(State())) && idx < |keys|
      ensures rotated <==> |keys| > 1
    {
      if |keys| <= 1 {
        return false;
      }
      idx := (idx + 1) % |keys|;
      return true;
    }
  }

  // ---------------------------------------------------------------------
  // Complete, as a function of the chain's state
  // ---------------------------------------------------------------------

  datatype ChainState = ChainState(trackers: seq<Tracker>, auths: seq<Auth>)

  /** What the chain does not control during one call: when the context ends, the
      clock as each candidate is checked and as its failure is recorded, and what
      each provider answers. */
  datatype World = World(ctxErr: nat -> Option<string>, clock: nat -> int, late: nat -> int,
                         reply: nat -> Result<string, CallError>)

  datatype Verdict = Answer(resp: string) | Cancelled(err: string) | Fatal(e: CallError)
    | NoProvider | Exhausted(last: Option<CallError>)

  /** How a walk over the candidates ends: where, and which of them it has called. */
  datatype Outcome = Outcome(verdict: Verdict, st: ChainState, called: seq<nat>, stop: nat)

  ghost predicate WellFormed(entries: seq<Entry>, st: ChainState, cands: seq<nat>) {
    && |st.trackers| == |entries|
    && (forall i | 0 <= i < |cands| :: cands[i] < |entries|)
    && (forall k, a | 0 <= k < |entries| && entries[k].auth == Some(a) :: a < |st.auths|)
  }

  /** The state after a retryable failure of entry k. */
  function AfterFailure(entries: seq<Entry>, st: ChainState, k: nat, e: CallError, now: int): ChainState
    requires k < |entries| == |st.trackers| && (entries[k].auth.Some? ==> entries[k].auth.value < |st.auths|)
  {
    var auth := entries[k].auth;
    ChainState(st.trackers[k := Failed(WithDefaults(entries[k].health), st.trackers[k], now)],
               if e.rateLimit && auth.Some? then st.auths[auth.value := Turn(st.auths[auth.value])] else st.auths)
  }

  function Walk(w: World, entries: seq<Entry>, cands: seq<nat>, pos: nat, st: ChainState,
                last: Option<CallError>): (o: Outcome)
    requires WellFormed(entries, st, cands) && pos <= |cands|
    ensures |o.st.trackers| == |st.trackers| && |o.st.auths| == |st.auths|
    decreases |cands| - pos
  {
    if pos == |cands| then Outcome(Exhausted(last), st, [], pos)
    else if w.ctxErr(pos).Some? then Outcome(Cancelled(w.ctxErr(pos).value), st, [], pos)
    else
      var k := cands[pos];
      if !Available(st.trackers[k], w.clock(pos)) then Walk(w, entries, cands, pos + 1, st, last)
      else
        match w.reply(k)
        case Ok(v) => Outcome(Answer(v), st.(trackers := st.trackers[k := Succeeded(st.trackers[k])]), [pos], pos)
        case Err(e) =>
          if !Retryable(e) then Outcome(Fatal(e), st, [pos], pos)
          else
            var rest := Walk(w, entries, cands, pos + 1, AfterFailure(entries, st, k, e, w.late(pos)), Some(e));
            rest.(called := [pos] + rest.called)
  }

  // ---------------------------------------------------------------------
  // What such a walk does, seen from outside
  // ---------------------------------------------------------------------

  /** Positions up to here were reached. */
  function Reached(o: Outcome): nat { if o.verdict.Answer? || o.verdict.Fatal? then o.stop + 1 else o.stop }

  /** Exactly the available candidates among those reached are called, in order. */
  ghost predicate CallsTheAvailable(w: World, cands: seq<nat>, pos: nat, st: ChainState, o: Outcome) {
    && pos <= o.stop && Reached(o) <= |cands|
    && (forall i | 0 <= i < |cands| :: cands[i] < |st.trackers|)
    && Rising(o.called)
    && (forall p: nat :: p in o.called <==> pos <= p < Reached(o) && Available(st.trackers[cands[p]], w.clock(p)))
  }

  lemma {:induction false} WalkCallsTheAvailable(w: World, entries: seq<Entry>, cands: seq<nat>, pos: nat,
                                                 st: ChainState, last: Option<CallError>)
    requires WellFormed(entries, st, cands) && NoRepeats(cands) && pos <= |cands|
    ensures CallsTheAvailable(w, cands, pos, st, Walk(w, entries, cands, pos, st, last))
    decreases |cands| - pos
  {
    if pos < |cands| && w.ctxErr(pos).None? {
      var k := cands[pos];
      if !Available(st.trackers[k], w.clock(pos)) {
        WalkCallsTheAvailable(w, entries, cands, pos + 1, st, last);
      } else if w.reply(k).Err? && Retryable(w.reply(k).error) {
        var st' := AfterFailure(entries, st, k, w.reply(k).error, w.late(pos));
        var rest := Walk(w, entries, cands, pos + 1, st', Some(w.reply(k).error));
        WalkCallsTheAvailable(w, entries, cands, pos + 1, st', Some(w.reply(k).error));
        ConsRises(pos, rest.called);
      }
    }
  }

  lemma ConsRises(pos: nat, s: seq<nat>)
    requires Rising(s) && forall p | p in s :: pos < p
    ensures Rising([pos] + s) && forall p :: p in [pos] + s <==> p == pos || p in s
  {
    forall j | 0 <= j < |s| ensures pos < s[j] {
      assert s[j] in s;
    }
  }

  /** Every call before the last failed retryably, and the walk ends for the reason
      that the verdict gives. */
  ghost predicate StopsAtTheFirst(w: World, cands: seq<nat>, pos: nat, last: Option<CallError>, o: Outcome) {
    && pos <= o.stop <= |cands| && (forall j | 0 <= j < |o.called| :: o.called[j] <= o.stop && o.called[j] < |cands|)
    && (forall j | 0 <= j < |o.called| && o.called[j] < o.stop ::
          w.reply(cands[o.called[j]]).Err? && Retryable(w.reply(cands[o.called[j]]).error))
    && (forall p | pos <= p < Reached(o) :: w.ctxErr(p).None?)
    && match o.verdict
       case Answer(v) => o.stop < |cands| && o.stop in o.called && w.reply(cands[o.stop]) == Ok(v)
       case Fatal(e) => o.stop < |cands| && o.stop in o.called && w.reply(cands[o.stop]) == Err(e) && !Retryable(e)
       case Cancelled(e) => o.stop < |cands| && o.stop !in o.called && w.ctxErr(o.stop) == Some(e)
       case Exhausted(l) =>
         && o.stop == |cands|
         && (if o.called == [] then l == last
             else l.Some? && w.reply(cands[o.called[|o.called| - 1]]) == Err(l.value))
       case NoProvider => false
  }

  lemma {:induction false} WalkStopsAtTheFirst(w: World, entries: seq<Entry>, cands: seq<nat>, pos: nat,
                                               st: ChainState, last: Option<CallError>)
    requires WellFormed(entries, st, cands) && pos <= |cands|
    ensures StopsAtTheFirst(w, cands, pos, last, Walk(w, entries, cands, pos, st, last))
    decreases |cands| - pos
  {
    if pos < |cands| && w.ctxErr(pos).None? {
      var k := cands[pos];
      if !Available(st.trackers[k], w.clock(pos)) {
        WalkStopsAtTheFirst(w, entries, cands, pos + 1, st, last);
      } else if w.reply(k).Err? && Retryable(w.reply(k).error) {
        var e := w.reply(k).error;
        var st' := AfterFailure(entries, st, k, e, w.late(pos));
        WalkStopsAtTheFirst(w, entries, cands, pos + 1, st', Some(e));
        FailureThenStops(w, cands, pos, last, e, Walk(w, entries, cands, pos + 1, st', Some(e)));
      }
    }
  }

  lemma FailureThenStops(w: World, cands: seq<nat>, pos: nat, last: Option<CallError>, e: CallError, rest: Outcome)
    requires pos < |cands| && w.reply(cands[pos]) == Err(e) && Retryable(e) && w.ctxErr(pos).None?
    requires StopsAtTheFirst(w, cands, pos + 1, Some(e), rest)
    ensures StopsAtTheFirst(w, cands, pos, last, rest.(called := [pos] + rest.called))
  {
    var o := rest.(called := [pos] + rest.called);
    assert forall j | 0 < j < |o.called| :: o.called[j] == rest.called[j - 1];
    assert rest.called != [] ==> o.called[|o.called| - 1] == rest.called[|rest.called| - 1];
  }

  /** What one call does to the tracker of its provider. */
  function Judged(w: World, entries: seq<Entry>, t: Tracker, k: nat, p: nat): Tracker
    requires k < |entries|
  {
    match w.reply(k)
    case Ok(_) => Succeeded(t)
    case Err(e) => if Retryable(e) then Failed(WithDefaults(entries[k].health), t, w.late(p)) else t
  }

  /** Each call settles its own provider's tracker, once; no other tracker changes. */
  ghost predicate SettlesTrackers(w: World, entries: seq<Entry>, cands: seq<nat>, st: ChainState, o: Outcome) {
    && |o.st.trackers| == |st.trackers| == |entries|
    && (forall p | p in o.called :: p < |cands| && cands[p] < |entries|)
    && (forall p | p in o.called :: o.st.trackers[cands[p]] == Judged(w, entries, st.trackers[cands[p]], cands[p], p))
    && (forall k | 0 <= k < |entries| && (forall p | p in o.called :: cands[p] != k) ::
          o.st.trackers[k] == st.trackers[k])
  }

  lemma {:induction false} WalkSettlesTrackers(w: World, entries: seq<Entry>, cands: seq<nat>, pos: nat,
                                               st: ChainState, last: Option<CallError>)
    requires WellFormed(entries, st, cands) && NoRepeats(cands) && pos <= |cands|
    ensures SettlesTrackers(w, entries, cands, st, Walk(w, entries, cands, pos, st, last))
    decreases |cands| - pos
  {
    if pos < |cands| && w.ctxErr(pos).None? {
      var k := cands[pos];
      if !Available(st.trackers[k], w.clock(pos)) {
        WalkSettlesTrackers(w, entries, cands, pos + 1, st, last);
      } else if w.reply(k).Err? && Retryable(w.reply(k).error) {
        var e := w.reply(k).error;
        var st' := AfterFailure(entries, st, k, e, w.late(pos));
        WalkSettlesTrackers(w, entries, cands, pos + 1, st', Some(e));
        WalkCallsTheAvailable(w, entries, cands, pos + 1, st', Some(e));
        FailureThenRest(w, entries, cands, pos, st, e, Walk(w, entries, cands, pos + 1, st', Some(e)));
      }
    }
  }

  lemma FailureThenRest(w: World, entries: seq<Entry>, cands: seq<nat>, pos: nat, st: ChainState, e: CallError,
                        rest: Outcome)
    requires WellFormed(entries, st, cands) && NoRepeats(cands) && pos < |cands|
    requires w.reply(cands[pos]) == Err(e) && Retryable(e)
    requires SettlesTrackers(w, entries, cands, AfterFailure(entries, st, cands[pos], e, w.late(pos)), rest)
    requires forall p | p in rest.called :: pos < p
    ensures SettlesTrackers(w, entries, cands, st, rest.(called := [pos] + rest.called))
  {
    var o := rest.(called := [pos] + rest.called);
    var st' := AfterFailure(entries, st, cands[pos], e, w.late(pos));
    assert forall p :: p in o.called <==> p == pos || p in rest.called;
    assert forall p | p in rest.called :: cands[p] != cands[pos];
    forall k | 0 <= k < |entries| && (forall p | p in o.called :: cands[p] != k)
      ensures o.st.trackers[k] == st.trackers[k]
    {
      assert pos in o.called && cands[pos] != k;
      assert st'.trackers[k] == st.trackers[k];
    }
  }

  /** How often the calls hit a rate limit with key set a. */
  function Limits(w: World, entries: seq<Entry>, cands: seq<nat>, called: seq<nat>, a: nat): nat
    requires forall j | 0 <= j < |called| :: called[j] < |cands| && cands[called[j]] < |entries|
  {
    if called == [] then 0
    else
      (if HitsLimit(w, entries, cands[called[0]], a) then 1 else 0)
        + Limits(w, entries, cands, called[1..], a)
  }

  predicate HitsLimit(w: World, entries: seq<Entry>, k: nat, a: nat)
    requires k < |entries|
  {
    w.reply(k).Err? && w.reply(k).error.rateLimit && entries[k].auth == Some(a)
  }

  lemma LimitsCons(w: World, entries: seq<Entry>, cands: seq<nat>, pos: nat, called: seq<nat>, a: nat)
    requires forall j | 0 <= j < |called| :: called[j] < |cands| && cands[called[j]] < |entries|
    requires pos < |cands| && cands[pos] < |entries|
    ensures Limits(w, entries, cands, [pos] + called, a)
         == (if HitsLimit(w, entries, cands[pos], a) then 1 else 0) + Limits(w, entries, cands, called, a)
  {
    assert ([pos] + called)[1..] == called;
  }

  lemma {:induction false} TurnFirst(x: Auth, n: nat)
    ensures Turned(Turn(x), n) == Turned(x, n + 1)
  {
    if n > 0 {
      TurnFirst(x, n - 1);
    }
  }

  predicate InRange(entries: seq<Entry>, cands: seq<nat>, called: seq<nat>) {
    forall j | 0 <= j < |called| :: called[j] < |cands| && cands[called[j]] < |entries|
  }

  /** Key set a has turned once per rate limit, and for nothing else. */
  ghost predicate TurnsKeys(w: World, entries: seq<Entry>, cands: seq<nat>, a: nat, before: Auth, o: Outcome) {
    && InRange(entries, cands, o.called) && a < |o.st.auths|
    && o.st.auths[a] == Turned(before, Limits(w, entries, cands, o.called, a))
  }

  lemma FailureThenTurns(w: World, entries: seq<Entry>, cands: seq<nat>, pos: nat, a: nat, before: Auth, after: Auth,
                         rest: Outcome)
    requires pos < |cands| && cands[pos] < |entries|
    requires after == if HitsLimit(w, entries, cands[pos], a) then Turn(before) else before
    requires TurnsKeys(w, entries, cands, a, after, rest)
    ensures TurnsKeys(w, entries, cands, a, before, rest.(called := [pos] + rest.called))
  {
    LimitsCons(w, entries, cands, pos, rest.called, a);
    TurnFirst(before, Limits(w, entries, cands, rest.called, a));
  }

  lemma NoLimitNoTurn(w: World, entries: seq<Entry>, cands: seq<nat>, pos: nat, a: nat, o: Outcome)
    requires pos < |cands| && cands[pos] < |entries| && !HitsLimit(w, entries, cands[pos], a)
    requires o.called == [pos] && a < |o.st.auths|
    ensures TurnsKeys(w, entries, cands, a, o.st.auths[a], o)
  {
    assert [pos] == [pos] + [];
    LimitsCons(w, entries, cands, pos, [], a);
  }

  lemma {:induction false} WalkTurnsKeys(w: World, entries: seq<Entry>, cands: seq<nat>, pos: nat, st: ChainState,
                                         last: Option<CallError>, a: nat)
    requires WellFormed(entries, st, cands) && pos <= |cands| && a < |st.auths|
    ensures TurnsKeys(w, entries, cands, a, st.auths[a], Walk(w, entries, cands, pos, st, last))
    decreases |cands| - pos
  {
    if pos < |cands| && w.ctxErr(pos).None? {
      var k := cands[pos];
      if !Available(st.trackers[k], w.clock(pos)) {
        WalkTurnsKeys(w, entries, cands, pos + 1, st, last, a);
      } else if w.reply(k).Err? && Retryable(w.reply(k).error) {
        var e := w.reply(k).error;
        var st' := AfterFailure(entries, st, k, e, w.late(pos));
        WalkTurnsKeys(w, entries, cands, pos + 1, st', Some(e), a);
        FailureThenTurns(w, entries, cands, pos, a, st.auths[a], st'.auths[a],
                         Walk(w, entries, cands, pos + 1, st', Some(e)));
      } else {
        NoLimitNoTurn(w, entries, cands, pos, a, Walk(w, entries, cands, pos, st, last));
      }
    }
  }

  // ---------------------------------------------------------------------
  // The code
  // ---------------------------------------------------------------------

  /** The profiles are separate objects, each at one of its keys, and the entries
      refer to them. */
  ghost predicate ProfilesFit(entries: seq<Entry>, profiles: seq<AuthProfile>)
    reads profiles
  {
    && (forall i, j | 0 <= i < j < |profiles| :: profiles[i] != profiles[j])
    && (forall k, a | 0 <= k < |entries| && entries[k].auth == Some(a) :: a < |profiles|)
    && (forall a | 0 <= a < |profiles| :: profiles[a].idx < |profiles[a].keys|)
  }

  /** Separate trackers for the first entries, each in its first state. */
  ghost predicate NewTrackers(trackers: seq<HealthTracker>, entries: seq<Entry>)
    reads trackers
  {
    && |trackers| <= |entries|
    && (forall i, j | 0 <= i < j < |trackers| :: trackers[i] != trackers[j])
    && (forall i | 0 <= i < |trackers| ::
          trackers[i].cfg == WithDefaults(entries[i].health) && trackers[i].State() == FRESH)
  }

  /** All trackers fresh, all profiles as they are. */
  ghost function Initial(entries: seq<Entry>, profiles: seq<AuthProfile>): ChainState
    reads profiles
  {
    ChainState(seq(|entries|, _ => FRESH),
               seq(|profiles|, a requires 0 <= a < |profiles| reads profiles => profiles[a].State()))
  }

  datatype ConfigError = NoEntries | MissingProvider(name: string)

  /** NewChain: an error for no entries and for the first entry without provider. */
  method NewChain(entries: seq<Entry>, profiles: seq<AuthProfile>) returns (c: Chain?, err: Option<ConfigError>)
    requires ProfilesFit(entries, profiles)
    ensures c == null <==> err.Some?
    ensures c != null <==> entries != [] && forall i | 0 <= i < |entries| :: entries[i].hasProvider
    ensures c != null ==> fresh(c) && c.entries == entries && c.profiles == profiles
                          && c.Wired() && c.Shows(Initial(entries, profiles))
    ensures err == Some(NoEntries) <==> entries == []
    ensures forall name :: err == Some(MissingProvider(name)) ==>
              exists i | 0 <= i < |entries| :: !entries[i].hasProvider && entries[i].name == name
                                               && forall j | 0 <= j < i :: entries[j].hasProvider
  {
    if |entries| == 0 {
      return null, Some(NoEntries);
    }
    for i := 0 to |entries|
      invariant forall j | 0 <= j < i :: entries[j].hasProvider
    {
      if !entries[i].hasProvider {
        return null, Some(MissingProvider(entries[i].name));
      }
    }
    c := new Chain(entries, profiles);
    err := None;
  }

  class Chain {
    const entries: seq<Entry>
    const trackers: seq<HealthTracker>
    const profiles: seq<AuthProfile>

    /** Every entry gets a fresh tracker of its own. */
    constructor (entries: seq<Entry>, profiles: seq<AuthProfile>)
      requires ProfilesFit(entries, profiles)
      ensures this.entries == entries && this.profiles == profiles
      ensures Wired() && Shows(Initial(entries, profiles))
      ensures forall i | 0 <= i < |trackers| :: fresh(trackers[i])
    {
      var made: seq<HealthTracker> := [];
      for i := 0 to |entries|
        invariant |made| == i && NewTrackers(made, entries)
        invariant forall j | 0 <= j < i :: fresh(made[j])
      {
        var tracker := new HealthTracker(entries[i].health);
        made := made + [tracker];
      }
      this.entries, this.trackers, this.profiles := entries, made, profiles;
    }

    ghost predicate Wired()
      reads trackers, profiles
    {
      && |trackers| == |entries|
      && (forall i | 0 <= i < |trackers| :: trackers[i].cfg == WithDefaults(entries[i].health))
      && (forall i, j | 0 <= i < j < |trackers| :: trackers[i] != trackers[j])
      && (forall i, j | 0 <= i < j < |profiles| :: profiles[i] != profiles[j])
      && (forall k, a | 0 <= k < |entries| && entries[k].auth == Some(a) :: a < |profiles|)
      && (forall a | 0 <= a < |profiles| :: profiles[a].idx < |profiles[a].keys|)
    }

    ghost predicate Shows(st: ChainState)
      reads trackers, profiles
    {
      && |st.trackers| == |trackers| && |st.auths| == |profiles|
      && (forall i | 0 <= i < |trackers| :: trackers[i].State() == st.trackers[i])
      && (forall a | 0 <= a < |profiles| :: profiles[a].State() == st.auths[a])
    }

    /** A retryable failure: rotate on a rate limit, then record the failure. */
    method RecordRetryable(k: nat, e: CallError, now: int, ghost st: ChainState)
      requires Wired() && Shows(st) && k < |entries|
      modifies trackers, profiles
      ensures Wired() && Shows(AfterFailure(entries, st, k, e, now))
    {
      if e.rateLimit && entries[k].auth.Some? {
        var _ := profiles[entries[k].auth.value].Rotate();
      }
      trackers[k].RecordFailure(now);
    }

    method RecordAnswer(k: nat, ghost st: ChainState)
      requires Wired() && Shows(st) && k < |entries|
      modifies trackers, profiles
      ensures Wired() && Shows(st.(trackers := st.trackers[k := Succeeded(st.trackers[k])]))
    {
      trackers[k].RecordSuccess();
    }

    /** Complete. */
    method Complete(role: string, w: World, ghost st: ChainState)
      returns (verdict: Verdict, ghost cands: seq<nat>, ghost out: Outcome)
      requires Wired() && Shows(st)
      modifies trackers, profiles
      ensures Wired() && verdict == out.verdict && Shows(out.st)
      ensures WellFormed(entries, st, cands) && NoRepeats(cands)
      ensures CandidatesOf(entries, role, cands)
      ensures out == if cands == [] then Outcome(NoProvider, st, [], 0) else Walk(w, entries, cands, 0, st, None)
    {
      var candidates := Candidates(entries, role);
      cands := candidates;
      CandidatesNeverRepeat(entries, role, cands);
      if |candidates| == 0 {
        out := Outcome(NoProvider, st, [], 0);
        return NoProvider, cands, out;
      }
      out := Walk(w, entries, cands, 0, st, None);
      verdict := TryEach(candidates, w, st);
    }

    /** The loop of Complete. */
    method TryEach(candidates: seq<nat>, w: World, ghost st: ChainState) returns (verdict: Verdict)
      requires Wired() && Shows(st) && WellFormed(entries, st, candidates)
      modifies trackers, profiles
      ensures Wired() && verdict == Walk(w, entries, candidates, 0, st, None).verdict
      ensures Shows(Walk(w, entries, candidates, 0, st, None).st)
    {
      ghost var out := Walk(w, entries, candidates, 0, st, None);
      ghost var now := st;
      var lastErr: Option<CallError> := None;
      for pos := 0 to |candidates|
        invariant Wired() && Shows(now) && WellFormed(entries, now, candidates)
        invariant Walk(w, entries, candidates, pos, now, lastErr).verdict == out.verdict
        invariant Walk(w, entries, candidates, pos, now, lastErr).st == out.st
      {
        var k := candidates[pos];
        var ctxErr := w.ctxErr(pos);
        if ctxErr.Some? {
          return Cancelled(ctxErr.value);
        }
        var available := trackers[k].IsAvailable(w.clock(pos));
        if !available {
          continue;
        }
        var reply := w.reply(k);
        if reply.Ok? {
          RecordAnswer(k, now);
          return Answer(reply.value);
        }
        lastErr := Some(reply.error);
        if !Retryable(reply.error) {
          return Fatal(reply.error);
        }
        RecordRetryable(k, reply.error, w.late(pos), now);
        now := AfterFailure(entries, now, k, reply.error, w.late(pos));
      }
      verdict := Exhausted(lastErr);
    }
  }

  // ---------------------------------------------------------------------
  // The laws of every call of Complete
  // ---------------------------------------------------------------------

  /** Whatever the providers answer: the available candidates are called in order,
      each at most once, up to the first success or non-retryable error; every call
      settles its own provider's health; keys turn once per rate limit. */
  lemma CompleteIsLawful(w: World, entries: seq<Entry>, cands: seq<nat>, st: ChainState)
    requires WellFormed(entries, st, cands) && NoRepeats(cands)
    ensures var o := Walk(w, entries, cands, 0, st, None);
      && CallsTheAvailable(w, cands, 0, st, o)
      && StopsAtTheFirst(w, cands, 0, None, o)
      && SettlesTrackers(w, entries, cands, st, o)
      && (forall i, j | 0 <= i < j < |o.called| :: cands[o.called[i]] != cands[o.called[j]])
      && (forall a | 0 <= a < |st.auths| :: TurnsKeys(w, entries, cands, a, st.auths[a], o))
  {
    WalkCallsTheAvailable(w, entries, cands, 0, st, None);
    WalkStopsAtTheFirst(w, entries, cands, 0, st, None);
    WalkSettlesTrackers(w, entries, cands, 0, st, None);
    forall a | 0 <= a < |st.auths|
      ensures TurnsKeys(w, entries, cands, a, st.auths[a], Walk(w, entries, cands, 0, st, None))
    {
      WalkTurnsKeys(w, entries, cands, 0, st, None, a);
    }
  }
}
