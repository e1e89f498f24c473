/** The in-memory fact store (internal/memory/store_mem.go): a slice of facts with
  an index from IDs to positions, and deletion by swapping in the last fact. */
module FactStore {
  import opened Options

  datatype Fact = Fact(id: string, content: string, metadata: Option<map<string, string>>)

  /** The two fields of the store. */
  datatype Store = Store(facts: seq<Fact>, index: map<string, nat>)

  const EMPTY := Store([], map[])

  /** The index maps exactly the stored IDs to their positions, one to one. */
  ghost predicate Indexed(st: Store) {
    && (forall id | id in st.index :: st.index[id] < |st.facts| && st.facts[st.index[id]].id == id)
    && (forall i | 0 <= i < |st.facts| :: st.facts[i].id in st.index && st.index[st.facts[i].id] == i)
  }

  /** What the store stands for. */
  ghost function Contents(st: Store): map<string, Fact>
    requires Indexed(st)
  {
    map id | id in st.index :: st.facts[st.index[id]]
  }

  function Put(st: Store, f: Fact): Store
    requires f.id in st.index ==> st.index[f.id] < |st.facts|
  {
    if f.id in st.index then st.(facts := st.facts[st.index[f.id] := f])
    else Store(st.facts + [f], st.index[f.id := |st.facts|])
  }

  /** Swap-delete. */
  function Remove(st: Store, id: string): Store
    requires id in st.index ==> st.index[id] < |st.facts|
  {
    if id !in st.index then st
    else
      var idx, last := st.index[id], |st.facts| - 1;
      if idx == last then Store(st.facts[..last], st.index - {id})
      else Store(st.facts[idx := st.facts[last]][..last], st.index[st.facts[last].id := idx] - {id})
  }

  lemma PutKeepsIndexed(st: Store, f: Fact)
    requires Indexed(st)
    ensures Indexed(Put(st, f)) && Contents(Put(st, f)) == Contents(st)[f.id := f]
  {
  }

  lemma RemoveKeepsIndexed(st: Store, id: string)
    requires Indexed(st)
    ensures Indexed(Remove(st, id))
    ensures Contents(Remove(st, id)) == Contents(st) - {id}
  {
    if id in st.index {
      var st' := Remove(st, id);
      var idx, last := st.index[id], |st.facts| - 1;
      var moved := st.facts[last].id;
      assert moved == id <==> idx == last;
      forall j | j in st'.index
        ensures st'.index[j] < |st'.facts| && st'.facts[st'.index[j]].id == j
        ensures j in st.index && st'.facts[st'.index[j]] == st.facts[st.index[j]]
      {
        if j == moved {
        } else {
          assert st.index[j] != last && st.index[j] != idx;
        }
      }
      forall i | 0 <= i < |st'.facts| ensures st'.facts[i].id in st'.index && st'.index[st'.facts[i].id] == i {
        if i == idx {
        } else {
          assert st'.facts[i] == st.facts[i] && st.facts[i].id != id && st.facts[i].id != moved;
        }
      }
    }
  }

  // ---------------------------------------------------------------------
  // Runs
  // ---------------------------------------------------------------------

  datatype Op = Index(fact: Fact) | Delete(id: string)

  /** A map from IDs to facts under the same operations. */
  function MapAfter(ops: seq<Op>): map<string, Fact> {
    if ops == [] then map[]
    else
      var m := MapAfter(ops[..|ops| - 1]);
      match ops[|ops| - 1]
      case Index(f) => m[f.id := f]
      case Delete(id) => m - {id}
  }

  ghost predicate Runs(states: seq<Store>, ops: seq<Op>) {
    && |states| == |ops| + 1 && states[0] == EMPTY
    && forall k | 0 <= k < |ops| :: StepsTo(states[k], ops[k], states[k + 1])
  }

  ghost predicate StepsTo(st: Store, op: Op, st': Store) {
    match op
    case Index(f) => (f.id in st.index ==> st.index[f.id] < |st.facts|) && st' == Put(st, f)
    case Delete(id) => (id in st.index ==> st.index[id] < |st.facts|) && st' == Remove(st, id)
  }

  /** In every run the store stands for the map of the same operations, and its
      index stays exact. */
  lemma {:induction false} StoreRefinesMap(states: seq<Store>, ops: seq<Op>)
    requires Runs(states, ops)
    ensures Indexed(states[|ops|]) && Contents(states[|ops|]) == MapAfter(ops)
    decreases |ops|
  {
    if ops != [] {
      var n := |ops| - 1;
      StoreRefinesMap(states[..n + 1], ops[..n]);
      match ops[n]
      case Index(f) => PutKeepsIndexed(states[n], f);
      case Delete(id) => RemoveKeepsIndexed(states[n], id);
    }
  }

  // ---------------------------------------------------------------------
  // Searching
  // ---------------------------------------------------------------------

  /** strings.Contains */
  predicate Contains(s: string, t: string) {
    |s| >= |t| && (s[..|t|] == t || (s != "" && Contains(s[1..], t)))
  }

  function Matching(facts: seq<Fact>, p: Fact -> bool): seq<Fact> {
    if facts == [] then []
    else Matching(facts[..|facts| - 1], p) + if p(facts[|facts| - 1]) then [facts[|facts| - 1]] else []
  }

  /** The IDs of the stored facts that match. */
  ghost function MatchingIds(st: Store, p: Fact -> bool): set<string>
    requires Indexed(st)
  {
    set id | id in Contents(st) && p(Contents(st)[id])
  }

  function Min(a: nat, b: nat): nat { if a <= b then a else b }

  lemma {:induction false} MatchingIn(facts: seq<Fact>, p: Fact -> bool, f: Fact)
    ensures f in Matching(facts, p) <==> f in facts && p(f)
    decreases |facts|
  {
    if facts != [] {
      MatchingIn(facts[..|facts| - 1], p, f);
      assert facts == facts[..|facts| - 1] + [facts[|facts| - 1]];
    }
  }

  ghost predicate DistinctIds(facts: seq<Fact>) { forall i, j | 0 <= i < j < |facts| :: facts[i].id != facts[j].id }

  function Ids(facts: seq<Fact>): set<string> { set f | f in facts :: f.id }

  lemma {:induction false} MatchingDistinct(facts: seq<Fact>, p: Fact -> bool)
    requires DistinctIds(facts)
    ensures DistinctIds(Matching(facts, p))
    decreases |facts|
  {
    if facts != [] {
      var init, last := facts[..|facts| - 1], facts[|facts| - 1];
      MatchingDistinct(init, p);
      var m := Matching(init, p);
      forall i | 0 <= i < |m| ensures m[i].id != last.id {
        MatchingIn(init, p, m[i]);
        assert m[i] in m;
      }
    }
  }

  lemma {:induction false} DistinctCount(facts: seq<Fact>)
    requires DistinctIds(facts)
    ensures |Ids(facts)| == |facts|
    decreases |facts|
  {
    if facts != [] {
      var init, last := facts[..|facts| - 1], facts[|facts| - 1];
      DistinctCount(init);
      assert facts == init + [last];
      assert Ids(facts) == Ids(init) + {last.id};
      assert last.id !in Ids(init);
    }
  }

  /** The matches in the slice are the matches in the map: each once. */
  lemma MatchesAreExact(st: Store, p: Fact -> bool)
    requires Indexed(st)
    ensures var found := Matching(st.facts, p);
      && DistinctIds(found) && Ids(found) == MatchingIds(st, p) && |found| == |MatchingIds(st, p)|
      && forall f | f in found :: f.id in Contents(st) && Contents(st)[f.id] == f && p(f)
  {
    var found := Matching(st.facts, p);
    assert DistinctIds(st.facts);
    MatchingDistinct(st.facts, p);
    DistinctCount(found);
    forall f ensures f in found <==> f in st.facts && p(f) {
      MatchingIn(st.facts, p, f);
    }
    forall id ensures id in Ids(found) <==> id in MatchingIds(st, p) {
      if id in MatchingIds(st, p) {
        assert Contents(st)[id] in found;
      }
    }
  }

  /** The facts whose content holds the query, letter case aside. */
  function Holding(query: string, lower: string -> string): Fact -> bool {
    (f: Fact) => Contains(lower(f.content), lower(query))
  }

  /** The facts whose metadata has this value; a missing key counts as the empty
      value, missing metadata as no value. */
  function Tagged(key: string, value: string): Fact -> bool {
    (f: Fact) => f.metadata.Some? && (if key in f.metadata.value then f.metadata.value[key] else "") == value
  }

  /** As many matching facts as there are, up to topK, the first in storage order. */
  ghost predicate FirstMatches(st: Store, p: Fact -> bool, topK: nat, results: seq<Fact>)
    requires Indexed(st)
  {
    && |results| == Min(topK, |MatchingIds(st, p)|)
    && results <= Matching(st.facts, p)
    && (forall f | f in results :: f.id in Contents(st) && Contents(st)[f.id] == f && p(f))
    && DistinctIds(results)
  }

  lemma PrefixIsFirst(st: Store, p: Fact -> bool, topK: nat, results: seq<Fact>)
    requires Indexed(st) && results <= Matching(st.facts, p) && |results| <= topK
    requires |results| < topK ==> results == Matching(st.facts, p)
    ensures FirstMatches(st, p, topK, results)
  {
    MatchesAreExact(st, p);
    forall f | f in results ensures f in Matching(st.facts, p) {
      var i :| 0 <= i < |results| && results[i] == f;
      assert Matching(st.facts, p)[i] == f;
    }
  }

  lemma MatchingStep(facts: seq<Fact>, p: Fact -> bool, i: nat)
    requires i < |facts|
    ensures Matching(facts[..i + 1], p) == Matching(facts[..i], p) + if p(facts[i]) then [facts[i]] else []
  {
    assert facts[..i + 1][..i] == facts[..i];
  }

  lemma {:induction false} MatchingPrefix(facts: seq<Fact>, p: Fact -> bool, n: nat)
    requires n <= |facts|
    ensures Matching(facts[..n], p) <= Matching(facts, p)
    decreases |facts|
  {
    if n == |facts| {
      assert facts[..n] == facts;
    } else {
      MatchingPrefix(facts[..|facts| - 1], p, n);
      assert facts[..|facts| - 1][..n] == facts[..n];
    }
  }

  // ---------------------------------------------------------------------
  // The code
  // ---------------------------------------------------------------------

  class InMemoryStore {
    var facts: seq<Fact>
    var index: map<string, nat>

    constructor ()
      ensures State() == EMPTY
    {
      facts, index := [], map[];
    }

    function State(): Store
      reads this
    {
      Store(facts, index)
    }

    method IndexFact(fact: Fact)
      requires Indexed(State())
      modifies this
      ensures State() == Put(old(State()), fact) && Indexed(State())
      ensures Contents(State()) == Contents(old(State()))[fact.id := fact]
    {
      PutKeepsIndexed(State(), fact);
      if fact.id in index {
        facts := facts[index[fact.id] := fact];
        return;
      }
      index := index[fact.id := |facts|];
      facts := facts + [fact];
    }

    /** false is ErrFactNotFound. */
    method DeleteFact(id: string) returns (found: bool)
      requires Indexed(State())
      modifies this
      ensures State() == Remove(old(State()), id) && Indexed(State())
      ensures found <==> id in Contents(old(State()))
      ensures Contents(State()) == Contents(old(State())) - {id}
    {
      RemoveKeepsIndexed(State(), id);
      if id !in index {
        return false;
      }
      var idx := index[id];
      var last := |facts| - 1;
      if idx != last {
        facts := facts[idx := facts[last]];
        index := index[facts[idx].id := idx];
      }
      facts := facts[..last];
      index := index - {id};
      return true;
    }

    /** Only matching facts, min(topK, number of matches) of them, the first in
        storage order. */
    method Search(query: string, topK: int, lower: string -> string) returns (results: seq<Fact>)
      requires Indexed(State())
      ensures topK <= 0 ==> results == []
      ensures topK > 0 ==> FirstMatches(State(), Holding(query, lower), topK, results)
    {
      if topK <= 0 {
        return [];
      }
      var queryLower := lower(query);
      results := [];
      var i := 0;
      while i < |facts|
        invariant 0 <= i <= |facts| && results == Matching(facts[..i], Holding(query, lower)) && |results| < topK
      {
        MatchingStep(facts, Holding(query, lower), i);
        if Contains(lower(facts[i].content), queryLower) {
          results := results + [facts[i]];
          if |results| >= topK {
            MatchingPrefix(facts, Holding(query, lower), i + 1);
            PrefixIsFirst(State(), Holding(query, lower), topK, results);
            return;
          }
        }
        i := i + 1;
      }
      assert facts[..|facts|] == facts;
      PrefixIsFirst(State(), Holding(query, lower), topK, results);
    }

    method SearchByMetadata(key: string, value: string) returns (results: seq<Fact>)
      requires Indexed(State())
      ensures results == Matching(facts, Tagged(key, value)) && Ids(results) == MatchingIds(State(), Tagged(key, value))
    {
      results := [];
      for i := 0 to |facts|
        invariant results == Matching(facts[..i], Tagged(key, value))
      {
        MatchingStep(facts, Tagged(key, value), i);
        var m := facts[i].metadata;
        if m.Some? && (if key in m.value then m.value[key] else "") == value {
          results := results + [facts[i]];
        }
      }
      assert facts[..|facts|] == facts;
      MatchesAreExact(State(), Tagged(key, value));
    }
  }
}
