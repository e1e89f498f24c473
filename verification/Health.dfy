/** Provider health with capped exponential backoff (internal/provider/health.go).
  Durations are 64-bit nanosecond counts, so doubling one can wrap around. */
module Health {
  datatype Condition = Healthy | Cooldown | Dead

  const INT64_SPAN := 0x1_0000_0000_0000_0000
  const INT64_HALF := 0x8000_0000_0000_0000

  type Duration = x: int | -INT64_HALF <= x < INT64_HALF

  /** The 64-bit value of a product. */
  function Wrapped(x: int): Duration { (x + INT64_HALF) % INT64_SPAN - INT64_HALF }

  datatype HealthConfig = HealthConfig(initialBackoff: Duration, maxBackoff: Duration, maxFailures: int)

  function WithDefaults(c: HealthConfig): (d: HealthConfig)
    ensures Positive(d)
  {
    HealthConfig(if c.initialBackoff <= 0 then 1_000_000_000 else c.initialBackoff,
                 if c.maxBackoff <= 0 then 60_000_000_000 else c.maxBackoff,
                 if c.maxFailures <= 0 then 5 else c.maxFailures)
  }

  predicate Positive(c: HealthConfig) { c.initialBackoff > 0 && c.maxBackoff > 0 && c.maxFailures > 0 }

  /** The fields of a tracker. */
  datatype Tracker = Tracker(condition: Condition, failures: nat, backoff: Duration, expires: int)

  const FRESH := Tracker(Healthy, 0, 0, 0)

  function NextBackoff(c: HealthConfig, b: Duration): Duration {
    var next := if b == 0 then c.initialBackoff else Wrapped(b * 2);
    if next > c.maxBackoff then c.maxBackoff else next
  }

  function Succeeded(t: Tracker): Tracker { Tracker(Healthy, 0, 0, t.expires) }

  function Failed(c: HealthConfig, t: Tracker, now: int): Tracker {
    if t.failures + 1 >= c.maxFailures then Tracker(Dead, t.failures + 1, t.backoff, t.expires)
    else
      var b := NextBackoff(c, t.backoff);
      Tracker(Cooldown, t.failures + 1, b, now + b)
  }

  predicate Available(t: Tracker, now: int) {
    match t.condition
    case Healthy => true
    case Cooldown => now >= t.expires
    case Dead => false
  }

  class HealthTracker {
    const cfg: HealthConfig
    var state: Condition
    var failures: nat
    var currentBackoff: Duration
    var cooldownExpires: int

    constructor (cfg: HealthConfig)
      ensures this.cfg == WithDefaults(cfg) && State() == FRESH
    {
      this.cfg := WithDefaults(cfg);
      state, failures, currentBackoff, cooldownExpires := Healthy, 0, 0, 0;
    }

    function State(): Tracker
      reads this
    {
      Tracker(state, failures, currentBackoff, cooldownExpires)
    }

    method IsAvailable(now: int) returns (ok: bool)
      ensures ok <==> Available(State(), now)
    {
      match state
      case Healthy => return true;
      case Cooldown => return !(now < cooldownExpires);
      case Dead => return false;
    }

    method ShouldHealthCheck(now: int) returns (probe: bool)
      // a probe is due exactly for what is not healthy and not still cooling down
      ensures probe <==> State().condition.Dead? || (State().condition.Cooldown? && Available(State(), now))
    {
      match state
      case Dead => return true;
      case Cooldown => return !(now < cooldownExpires);
      case Healthy => return false;
    }

    method RecordSuccess()
      modifies this
      ensures State() == Succeeded(old(State()))
    {
      state, failures, currentBackoff := Healthy, 0, 0;
    }

    method RecordFailure(now: int)
      modifies this
      ensures State() == Failed(cfg, old(State()), now)
    {
      failures := failures + 1;
      var newState: Condition;
      if failures >= cfg.maxFailures {
        newState := Dead;
      } else {
        newState := Cooldown;
        if currentBackoff == 0 {
          currentBackoff := cfg.initialBackoff;
        } else {
          currentBackoff := Wrapped(currentBackoff * 2);
        }
        if currentBackoff > cfg.maxBackoff {
          currentBackoff := cfg.maxBackoff;
        }
        cooldownExpires := now + currentBackoff;
      }
      state := newState;
    }
  }

  // ---------------------------------------------------------------------
  // A tracker is a function of its failure streak
  // ---------------------------------------------------------------------

  datatype Event = Success | Failure(now: int)

  function After(c: HealthConfig, events: seq<Event>): Tracker {
    if events == [] then FRESH
    else
      var t := After(c, events[..|events| - 1]);
      match events[|events| - 1]
      case Success => Succeeded(t)
      case Failure(now) => Failed(c, t, now)
  }

  /** The number of failures since the last success. */
  function Streak(events: seq<Event>): nat {
    if events == [] || events[|events| - 1].Success? then 0 else 1 + Streak(events[..|events| - 1])
  }

  /** The backoff that f failures in a row lead to, in the arithmetic of the code. */
  function BackoffOf(c: HealthConfig, f: nat): Duration {
    if f == 0 then 0
    else if f >= c.maxFailures then BackoffOf(c, f - 1)
    else NextBackoff(c, BackoffOf(c, f - 1))
  }

  /** After any run, state, failure count and backoff depend on the streak alone,
      and a cooldown ends one backoff after the last failure. */
  lemma {:induction false} StreakDecides(c: HealthConfig, events: seq<Event>)
    requires Positive(c)
    ensures var t, f := After(c, events), Streak(events);
      && t.failures == f && t.backoff == BackoffOf(c, f)
      && t.condition == (if f == 0 then Healthy else if f < c.maxFailures then Cooldown else Dead)
      && (t.condition.Cooldown? ==> t.expires == events[|events| - 1].now + BackoffOf(c, f))
    decreases |events|
  {
    if events != [] {
      StreakDecides(c, events[..|events| - 1]);
    }
  }

  // ---------------------------------------------------------------------
  // The formula, and when the code meets it
  // ---------------------------------------------------------------------

  function Pow2(n: nat): nat {
    if n == 0 then 1 else 2 * Pow2(n - 1)
  }

  /** d * 2^n, by doubling. */
  function Scaled(d: int, n: nat): int {
    if n == 0 then d else 2 * Scaled(d, n - 1)
  }

  lemma {:induction false} ScaledIsPower(d: int, n: nat)
    ensures Scaled(d, n) == d * Pow2(n)
  {
    if n > 0 {
      ScaledIsPower(d, n - 1);
      assert d * (2 * Pow2(n - 1)) == 2 * (d * Pow2(n - 1));
    }
  }

  function Min(a: int, b: int): int { if a <= b then a else b }

  /** min(MaxBackoff, InitialBackoff * 2^(f-1)) */
  function Formula(c: HealthConfig, f: nat): int
    requires f > 0
  {
    Min(c.maxBackoff, Scaled(c.initialBackoff, f - 1))
  }

  lemma {:induction false} ScaledPositive(d: int, n: nat)
    requires d > 0
    ensures Scaled(d, n) > 0
  {
    if n > 0 {
      ScaledPositive(d, n - 1);
    }
  }

  lemma FormulaDoubles(c: HealthConfig, f: nat)
    requires Positive(c) && f > 0
    ensures Formula(c, f + 1) == Min(c.maxBackoff, 2 * Formula(c, f))
    ensures 0 < Formula(c, f) <= Formula(c, f + 1)
  {
    ScaledPositive(c.initialBackoff, f - 1);
  }

  lemma {:induction false} FormulaGrows(c: HealthConfig, f: nat, g: nat)
    requires Positive(c) && 0 < f <= g
    ensures 0 < Formula(c, f) <= Formula(c, g)
    decreases g
  {
    if f < g {
      FormulaGrows(c, f, g - 1);
      FormulaDoubles(c, g - 1);
    } else {
      FormulaDoubles(c, f);
    }
  }

  lemma {:induction false} FormulaWhileSmall(c: HealthConfig, f: nat)
    requires Positive(c) && 0 < f < c.maxFailures
    requires f >= 2 ==> Formula(c, f - 1) < INT64_HALF / 2
    ensures BackoffOf(c, f) == Formula(c, f)
    decreases f
  {
    if f == 1 {
      assert BackoffOf(c, 0) == 0;
    } else {
      if f >= 3 {
        FormulaGrows(c, f - 2, f - 1);
      }
      FormulaWhileSmall(c, f - 1);
      FormulaDoubles(c, f - 1);
    }
  }

  /** The first backoff of at least 2^62 that is doubled. */
  lemma {:induction false} FirstLarge(c: HealthConfig, f: nat) returns (g: nat)
    requires Positive(c) && f > 0 && Formula(c, f) >= INT64_HALF / 2
    ensures 0 < g <= f && Formula(c, g) >= INT64_HALF / 2
    ensures g >= 2 ==> Formula(c, g - 1) < INT64_HALF / 2
    decreases f
  {
    if f >= 2 && Formula(c, f - 1) >= INT64_HALF / 2 {
      g := FirstLarge(c, f - 1);
    } else {
      g := f;
    }
  }

  /** Every cooldown of every streak has the backoff of the formula if and only if
      no backoff of 2^62 nanoseconds or more (146 years) is ever doubled. */
  lemma FormulaExactlyWhen(c: HealthConfig)
    requires Positive(c)
    ensures (forall f: nat | 0 < f < c.maxFailures :: BackoffOf(c, f) == Formula(c, f))
       <==> c.maxFailures <= 2 || Formula(c, c.maxFailures - 2) < INT64_HALF / 2
  {
    if c.maxFailures <= 2 || Formula(c, c.maxFailures - 2) < INT64_HALF / 2 {
      forall f: nat | 0 < f < c.maxFailures ensures BackoffOf(c, f) == Formula(c, f) {
        if f >= 2 {
          FormulaGrows(c, f - 1, c.maxFailures - 2);
        }
        FormulaWhileSmall(c, f);
      }
    } else {
      var g := FirstLarge(c, c.maxFailures - 2);
      FormulaWhileSmall(c, g);
      FormulaDoubles(c, g);
      assert BackoffOf(c, g + 1) != Formula(c, g + 1);
    }
  }

  /** With the defaults, and with any MaxBackoff below 2^62, the formula holds. */
  lemma FormulaHolds(c: HealthConfig, events: seq<Event>)
    requires Positive(c) && c.maxBackoff < INT64_HALF / 2
    ensures var t, f := After(c, events), Streak(events);
            0 < f < c.maxFailures ==>
              t.condition.Cooldown? && t.backoff == Min(c.maxBackoff, c.initialBackoff * Pow2(f - 1))
  {
    StreakDecides(c, events);
    FormulaExactlyWhen(c);
    if Streak(events) > 0 {
      ScaledIsPower(c.initialBackoff, Streak(events) - 1);
    }
  }

  /** The exception is real: with an initial backoff of 2^62 ns the second cooldown
      is negative, so the provider is available again at once. */
  lemma SecondCooldownWraps(now: int)
    ensures var c := HealthConfig(INT64_HALF / 2, INT64_HALF - 1, 4);
            var t := After(c, [Failure(now), Failure(now)]);
      && Positive(c) && Formula(c, 2) == INT64_HALF - 1
      && t.condition.Cooldown? && t.backoff == -INT64_HALF && Available(t, now)
  {
    var c := HealthConfig(INT64_HALF / 2, INT64_HALF - 1, 4);
    var events := [Failure(now), Failure(now)];
    assert events[..1] == [Failure(now)] && events[..1][..0] == [];
    assert After(c, events[..1]) == Failed(c, FRESH, now);
    assert Scaled(c.initialBackoff, 1) == 2 * Scaled(c.initialBackoff, 0);
  }
}
