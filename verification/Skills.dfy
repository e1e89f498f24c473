/** Pruning skills to a token budget (internal/workspace/format.go). The estimate of
  the formatted catalog is an arbitrary function of the list. */
module Skills {
  import opened Sequences

  const ALWAYS := "always"
  const AUTO := "auto"
  const MANUAL := "manual"

  datatype Skill = Skill(name: string, trigger: string, description: string, path: string, body: string)

  type Cost = seq<Skill> -> int

  /** The skills of one trigger mode, in order. */
  function Only(s: seq<Skill>, t: string): seq<Skill> {
    if s == [] then [] else Only(s[..|s| - 1], t) + if s[|s| - 1].trigger == t then [s[|s| - 1]] else []
  }

  /** The list without its last skill of a trigger mode, if it has one. */
  function DropLast(s: seq<Skill>, t: string): seq<Skill> {
    if s == [] then []
    else if s[|s| - 1].trigger == t then s[..|s| - 1]
    else DropLast(s[..|s| - 1], t) + [s[|s| - 1]]
  }

  function Drop(s: seq<Skill>, t: string, n: nat): seq<Skill> {
    if n == 0 then s else DropLast(Drop(s, t, n - 1), t)
  }

  /** The pruning order: auto skills last to first, then manual skills last to first. */
  function Pruned(s: seq<Skill>, n: nat): seq<Skill> {
    var autos := |Only(s, AUTO)|;
    if n <= autos then Drop(s, AUTO, n) else Drop(Drop(s, AUTO, autos), MANUAL, n - autos)
  }

  function Prunable(s: seq<Skill>): nat { |Only(s, AUTO)| + |Only(s, MANUAL)| }

  // ---------------------------------------------------------------------
  // What dropping does
  // ---------------------------------------------------------------------

  lemma OnlySnoc(s: seq<Skill>, x: Skill, t: string)
    ensures Only(s + [x], t) == if x.trigger == t then Only(s, t) + [x] else Only(s, t)
  {
    assert (s + [x])[..|s|] == s;
    assert Only(s, t) + [] == Only(s, t);
  }

  lemma {:induction false} OnlyAfterDropLast(s: seq<Skill>, t: string, t': string)
    ensures t' != t ==> Only(DropLast(s, t), t') == Only(s, t')
    ensures Only(DropLast(s, t), t) == if Only(s, t) == [] then [] else Only(s, t)[..|Only(s, t)| - 1]
    decreases |s|
  {
    if s != [] && s[|s| - 1].trigger != t {
      var init, x := s[..|s| - 1], s[|s| - 1];
      OnlyAfterDropLast(init, t, t');
      OnlySnoc(DropLast(init, t), x, t');
      OnlySnoc(DropLast(init, t), x, t);
    }
  }

  lemma {:induction false} OnlyAfterDrop(s: seq<Skill>, t: string, n: nat, t': string)
    requires n <= |Only(s, t)|
    ensures t' != t ==> Only(Drop(s, t, n), t') == Only(s, t')
    ensures Only(Drop(s, t, n), t) == Only(s, t)[..|Only(s, t)| - n]
  {
    if n > 0 {
      OnlyAfterDrop(s, t, n - 1, t');
      OnlyAfterDropLast(Drop(s, t, n - 1), t, t');
      TakeTake(Only(s, t), |Only(s, t)| - n + 1, |Only(s, t)| - n);
    }
  }

  /** Order-preserving sublists. */
  predicate Sublist(a: seq<Skill>, b: seq<Skill>)
    decreases |b|
  {
    if a == [] then true
    else if b == [] then false
    else if a[|a| - 1] == b[|b| - 1] then Sublist(a[..|a| - 1], b[..|b| - 1])
    else Sublist(a, b[..|b| - 1])
  }

  lemma {:induction false} SublistSkips(a: seq<Skill>, b: seq<Skill>)
    requires a != [] && Sublist(a, b)
    ensures Sublist(a[..|a| - 1], b)
    decreases |b|
  {
    if a[|a| - 1] == b[|b| - 1] {
      SublistGrows(a[..|a| - 1], b);
    } else {
      SublistSkips(a, b[..|b| - 1]);
      SublistGrows(a[..|a| - 1], b);
    }
  }

  lemma {:induction false} SublistGrows(a: seq<Skill>, b: seq<Skill>)
    requires b != [] && Sublist(a, b[..|b| - 1])
    ensures Sublist(a, b)
    decreases |b|, 0
  {
    if a != [] && a[|a| - 1] == b[|b| - 1] {
      SublistSkips(a, b[..|b| - 1]);
    }
  }

  lemma {:induction false} SublistTransitive(a: seq<Skill>, b: seq<Skill>, c: seq<Skill>)
    requires Sublist(a, b) && Sublist(b, c)
    ensures Sublist(a, c)
    decreases |c|
  {
    if a != [] {
      var c' := c[..|c| - 1];
      if b[|b| - 1] == c[|c| - 1] {
        if a[|a| - 1] == b[|b| - 1] {
          SublistTransitive(a[..|a| - 1], b[..|b| - 1], c');
        } else {
          SublistTransitive(a, b[..|b| - 1], c');
        }
      } else {
        SublistTransitive(a, b, c');
        SublistGrows(a, c);
      }
    }
  }

  lemma {:induction false} SublistSelf(a: seq<Skill>)
    ensures Sublist(a, a)
    decreases |a|
  {
    if a != [] {
      SublistSelf(a[..|a| - 1]);
    }
  }

  lemma {:induction false} DropLastIsSublist(s: seq<Skill>, t: string)
    ensures Sublist(DropLast(s, t), s)
    decreases |s|
  {
    if s != [] {
      var init := s[..|s| - 1];
      if s[|s| - 1].trigger == t {
        SublistSelf(init);
        SublistGrows(init, s);
      } else {
        DropLastIsSublist(init, t);
        assert DropLast(s, t)[..|DropLast(s, t)| - 1] == DropLast(init, t);
      }
    }
  }

  lemma {:induction false} DropIsSublist(s: seq<Skill>, t: string, n: nat)
    ensures Sublist(Drop(s, t, n), s)
  {
    if n == 0 {
      SublistSelf(s);
    } else {
      DropIsSublist(s, t, n - 1);
      DropLastIsSublist(Drop(s, t, n - 1), t);
      SublistTransitive(Drop(s, t, n), Drop(s, t, n - 1), s);
    }
  }

  /** Every list of the pruning order keeps the order, keeps every skill that is
      neither auto nor manual, loses auto skills from the end, and loses manual
      skills from the end only when no auto skill is left. */
  lemma PrunedKeeps(s: seq<Skill>, n: nat, t: string)
    requires n <= Prunable(s)
    ensures var r, autos, manuals := Pruned(s, n), Only(s, AUTO), Only(s, MANUAL);
      && Sublist(r, s)
      && (t != AUTO && t != MANUAL ==> Only(r, t) == Only(s, t))
      && Only(r, AUTO) == (if n <= |autos| then autos[..|autos| - n] else [])
      && Only(r, MANUAL) == (if n <= |autos| then manuals else manuals[..|autos| + |manuals| - n])
  {
    var autos := |Only(s, AUTO)|;
    if n <= autos {
      DropIsSublist(s, AUTO, n);
      OnlyAfterDrop(s, AUTO, n, t);
      OnlyAfterDrop(s, AUTO, n, MANUAL);
    } else {
      var half := Drop(s, AUTO, autos);
      DropIsSublist(s, AUTO, autos);
      OnlyAfterDrop(s, AUTO, autos, t);
      OnlyAfterDrop(s, AUTO, autos, MANUAL);
      DropIsSublist(half, MANUAL, n - autos);
      OnlyAfterDrop(half, MANUAL, n - autos, t);
      OnlyAfterDrop(half, MANUAL, n - autos, AUTO);
      SublistTransitive(Pruned(s, n), half, s);
    }
  }

  // ---------------------------------------------------------------------
  // The code
  // ---------------------------------------------------------------------

  method FilterAlways(skills: seq<Skill>) returns (result: seq<Skill>)
    ensures result == Only(skills, ALWAYS)
  {
    result := [];
    for i := 0 to |skills|
      invariant result == Only(skills[..i], ALWAYS)
    {
      assert skills[..i + 1][..i] == skills[..i];
      if skills[i].trigger == ALWAYS {
        result := result + [skills[i]];
      }
    }
    assert skills[..|skills|] == skills;
  }

  lemma {:induction false} DropLastAt(s: seq<Skill>, t: string, i: nat)
    requires i < |s| && s[i].trigger == t && forall j | i < j < |s| :: s[j].trigger != t
    ensures DropLast(s, t) == s[..i] + s[i + 1..]
    decreases |s|
  {
    if i < |s| - 1 {
      DropLastAt(s[..|s| - 1], t, i);
    }
  }

  lemma {:induction false} NoneLeft(s: seq<Skill>, t: string)
    requires forall j | 0 <= j < |s| :: s[j].trigger != t
    ensures Only(s, t) == []
    decreases |s|
  {
    if s != [] {
      NoneLeft(s[..|s| - 1], t);
    }
  }

  function CostAfter(s: seq<Skill>, t: string, cost: Cost, n: nat): int { cost(Drop(s, t, n)) }

  /** No list with fewer than n skills dropped fits. */
  ghost predicate TooBigBefore(s: seq<Skill>, t: string, budget: int, cost: Cost, n: nat) {
    forall m: nat | m < n :: CostAfter(s, t, cost, m) > budget
  }

  predicate NoneAfter(s: seq<Skill>, t: string, i: int) { forall j | 0 <= j < |s| && i < j :: s[j].trigger != t }

  /** Removing the last skill of the trigger mode from a list that is too big. */
  lemma DropOne(skills: seq<Skill>, t: string, budget: int, cost: Cost, n: nat, i: nat, r: seq<Skill>)
    requires n <= |Only(skills, t)| && r == Drop(skills, t, n) && i < |r| && r[i].trigger == t
    requires NoneAfter(r, t, i) && cost(r) > budget && TooBigBefore(skills, t, budget, cost, n)
    ensures n < |Only(skills, t)| && r[..i] + r[i + 1..] == Drop(skills, t, n + 1)
    ensures TooBigBefore(skills, t, budget, cost, n + 1) && NoneAfter(r[..i] + r[i + 1..], t, i - 1)
  {
    DropLastAt(r, t, i);
    OnlyAfterDrop(skills, t, n, t);
    SomeLeft(r, t, i);
    assert CostAfter(skills, t, cost, n) > budget;
    var r' := r[..i] + r[i + 1..];
    assert forall j | i <= j < |r'| :: r'[j] == r[j + 1];
  }

  /** pruneByTrigger: as few skills of the trigger mode as will do, from the end. */
  method PruneByTrigger(skills: seq<Skill>, trigger: string, budget: int, cost: Cost)
    returns (result: seq<Skill>, ghost n: nat)
    ensures n <= |Only(skills, trigger)| && result == Drop(skills, trigger, n)
    ensures TooBigBefore(skills, trigger, budget, cost, n)
    ensures cost(result) <= budget || n == |Only(skills, trigger)|
    ensures cost(result) <= budget || Only(result, trigger) == []
  {
    result, n := skills, 0;
    var i := |skills| - 1;
    while i >= 0
      invariant -1 <= i < |result| && n <= |Only(skills, trigger)|
      invariant result == Drop(skills, trigger, n)
      invariant TooBigBefore(skills, trigger, budget, cost, n)
      invariant NoneAfter(result, trigger, i)
    {
      if cost(result) <= budget {
        break;
      }
      if result[i].trigger == trigger {
        DropOne(skills, trigger, budget, cost, n, i, result);
        result, n := result[..i] + result[i + 1..], n + 1;
      }
      i := i - 1;
    }
    if cost(result) > budget {
      NoneLeft(result, trigger);
      OnlyAfterDrop(skills, trigger, n, trigger);
    }
  }

  lemma {:induction false} SomeLeft(s: seq<Skill>, t: string, i: nat)
    requires i < |s| && s[i].trigger == t
    ensures Only(s, t) != []
    decreases |s|
  {
    if i < |s| - 1 {
      SomeLeft(s[..|s| - 1], t, i);
    }
  }

  /** PruneSkillsToFit: for a positive budget the first list of the pruning order
      that fits, or the last of them when none does; otherwise the always skills. */
  method PruneSkillsToFit(skills: seq<Skill>, budget: int, cost: Cost) returns (result: seq<Skill>, ghost n: nat)
    ensures budget <= 0 ==> result == Only(skills, ALWAYS)
    ensures budget > 0 ==>
      && n <= Prunable(skills) && result == Pruned(skills, n)
      && (forall m: nat | m < n :: cost(Pruned(skills, m)) > budget)
      && (cost(result) <= budget || n == Prunable(skills))
  {
    n := 0;
    if budget <= 0 {
      result := FilterAlways(skills);
      return;
    }
    if cost(skills) <= budget {
      return skills, 0;
    }
    ghost var a, b;
    result, a := PruneByTrigger(skills, AUTO, budget, cost);
    n := a;
    if cost(result) <= budget {
      NoneEarlier(skills, budget, cost, a, 0);
      return;
    }
    OnlyAfterDrop(skills, AUTO, a, MANUAL);
    result, b := PruneByTrigger(result, MANUAL, budget, cost);
    n := a + b;
    NoneEarlier(skills, budget, cost, a, b);
  }

  /** No list of the pruning order before the one reached fits. */
  lemma NoneEarlier(skills: seq<Skill>, budget: int, cost: Cost, a: nat, b: nat)
    requires a <= |Only(skills, AUTO)| && (b > 0 ==> a == |Only(skills, AUTO)|)
    requires TooBigBefore(skills, AUTO, budget, cost, a)
    requires TooBigBefore(Drop(skills, AUTO, a), MANUAL, budget, cost, b)
    ensures forall m: nat | m < a + b :: cost(Pruned(skills, m)) > budget
  {
    forall m: nat | m < a + b ensures cost(Pruned(skills, m)) > budget {
      if m < a {
        assert CostAfter(skills, AUTO, cost, m) > budget;
      } else {
        assert CostAfter(Drop(skills, AUTO, a), MANUAL, cost, m - a) > budget;
        assert m == a ==> Pruned(skills, m) == Drop(Drop(skills, AUTO, a), MANUAL, 0);
      }
    }
  }

  /** When nothing fits, what is left is neither auto nor manual. */
  lemma LastPruned(s: seq<Skill>)
    ensures Only(Pruned(s, Prunable(s)), AUTO) == [] && Only(Pruned(s, Prunable(s)), MANUAL) == []
    ensures Only(Pruned(s, Prunable(s)), ALWAYS) == Only(s, ALWAYS)
  {
    PrunedKeeps(s, Prunable(s), ALWAYS);
  }
}
