/** The merge against the merge patch of section 2 of RFC 7386
  (internal/tool/configtool/merge.go), and what merging again leaves alone. */
module MergeRfc {
  import opened Options
  import opened MergePatch
  import opened MergeSemantics

  // ---------------------------------------------------------------------
  // What a tree says, and the two merges of what trees say
  // ---------------------------------------------------------------------

  datatype Plain = Plain(kind: Kind, tag: string, value: string, content: seq<Plain>)

  function Copy(t: Tree): Plain {
    Plain(t.at.kind, t.at.tag, t.at.value, seq(|t.content|, k requires 0 <= k < |t.content| => Copy(t.content[k])))
  }

  datatype Val = Null | Obj(members: map<string, Val>) | Leaf(plain: Plain)

  function Value(t: Tree): Val
    decreases t, |t.content| + 1
  {
    if IsNull(t.at) then Null
    else if t.at.kind.Mapping? then Obj(MembersFrom(t, 0))
    else Leaf(Copy(t))
  }

  function MembersFrom(t: Tree, i: nat): map<string, Val>
    decreases t, |t.content| - i
  {
    if i >= |t.content| - 1 then map[]
    else MembersFrom(t, i + 2)[t.content[i].at.value := Value(t.content[i + 1])]
  }

  predicate IsObj(v: Option<Val>) { v.Some? && v.value.Obj? }

  /** The members of an object, or none of something else. */
  function MembersOf(v: Option<Val>): map<string, Val> {
    if IsObj(v) then v.value.members else map[]
  }

  function Get(m: map<string, Val>, k: string): Option<Val> { if k in m then Some(m[k]) else None }

  /** Section 2 of RFC 7386. */
  function MergePatch7386(target: Option<Val>, patch: Val): Val
    decreases patch
  {
    if !patch.Obj? then patch
    else
      var t := MembersOf(target);
      Obj(map k | k in t.Keys + patch.members.Keys && !(k in patch.members && patch.members[k].Null?) ::
            if k in patch.members then MergePatch7386(Get(t, k), patch.members[k]) else t[k])
  }

  /** What the code does: a patch that meets no mapping is taken as it is. */
  function CodeMerge(b: Option<Val>, p: Val): Val
    decreases p
  {
    if IsObj(b) && p.Obj? then
      var t := b.value.members;
      Obj(map k | k in t.Keys + p.members.Keys && !(k in p.members && p.members[k].Null?) ::
            if k in p.members then CodeMerge(Get(t, k), p.members[k]) else t[k])
    else p
  }

  /** No null sits inside a patch mapping that lands where the base has no mapping. */
  predicate Clean(b: Option<Val>, p: Val)
    decreases p
  {
    p.Obj? ==>
      && (IsObj(b) || forall k | k in p.members :: !p.members[k].Null?)
      && (forall k | k in p.members && !p.members[k].Null? :: Clean(Get(MembersOf(b), k), p.members[k]))
  }

  // ---------------------------------------------------------------------
  // The code meets the RFC exactly on clean patches
  // ---------------------------------------------------------------------

  lemma {:induction false} ExactlyWhenClean(b: Option<Val>, p: Val)
    ensures CodeMerge(b, p) == MergePatch7386(b, p) <==> Clean(b, p)
    decreases p
  {
    if p.Obj? {
      var t := MembersOf(b);
      var r, c := MergePatch7386(b, p).members, CodeMerge(b, p).members;
      forall k | k in p.members && !p.members[k].Null?
        ensures CodeMerge(Get(t, k), p.members[k]) == MergePatch7386(Get(t, k), p.members[k])
           <==> Clean(Get(t, k), p.members[k])
      {
        ExactlyWhenClean(Get(t, k), p.members[k]);
      }
      if IsObj(b) {
        SameMembers(t, p.members, r, c);
      } else {
        assert forall k | k in p.members && !p.members[k].Null? :: Get(t, k).None?;
        if Clean(b, p) {
          assert r == c;
        } else if k :| k in p.members && p.members[k].Null? {
          assert k in c && k !in r;
        } else {
          var k :| k in p.members && !p.members[k].Null? && !Clean(Get(t, k), p.members[k]);
          assert c[k] != r[k];
        }
      }
    }
  }

  lemma SameMembers(t: map<string, Val>, pm: map<string, Val>, r: map<string, Val>, c: map<string, Val>)
    requires r.Keys == c.Keys
    requires forall k :: k in r <==> (k in t || k in pm) && !(k in pm && pm[k].Null?)
    requires forall k | k in r && k !in pm :: r[k] == c[k]
    ensures r == c <==> forall k | k in pm && !pm[k].Null? :: r[k] == c[k]
  {
    if forall k | k in pm && !pm[k].Null? :: r[k] == c[k] {
      forall k | k in r ensures r[k] == c[k] {
      }
    }
  }

  /** Merging the same patch again changes nothing exactly when it is clean. */
  lemma {:induction false} AgainExactlyWhenClean(b: Option<Val>, p: Val)
    ensures CodeMerge(Some(CodeMerge(b, p)), p) == CodeMerge(b, p) <==> Clean(b, p)
    decreases p
  {
    if p.Obj? {
      var t := MembersOf(b);
      var once := CodeMerge(b, p).members;
      var twice := CodeMerge(Some(CodeMerge(b, p)), p).members;
      forall k | k in p.members && !p.members[k].Null?
        ensures once[k] == CodeMerge(Get(t, k), p.members[k])
        ensures twice[k] == once[k] <==> Clean(Get(t, k), p.members[k])
      {
        AgainExactlyWhenClean(Get(t, k), p.members[k]);
      }
      if Clean(b, p) {
        assert twice == once;
      } else if !IsObj(b) && exists k :: k in p.members && p.members[k].Null? {
        var k :| k in p.members && p.members[k].Null?;
        assert k in once && k !in twice;
      } else {
        var k :| k in p.members && !p.members[k].Null? && !Clean(Get(t, k), p.members[k]);
        assert twice[k] != once[k];
      }
    }
  }

  // ---------------------------------------------------------------------
  // The tree that the code builds says what CodeMerge says
  // ---------------------------------------------------------------------

  lemma {:induction false} MembersAreLookups(t: Tree, i: nat, k: string)
    requires i % 2 == 0 && i <= |t.content| && |t.content| % 2 == 0
    ensures var m, v := MembersFrom(t, i), Lookup(Pairs(t.content)[i / 2..], k);
            Get(m, k) == if v.Some? then Some(Value(v.value)) else None
    decreases |t.content| - i
  {
    if i < |t.content| {
      var ps := Pairs(t.content)[i / 2..];
      assert ps[0] == Pair(t.content[i], t.content[i + 1]) && ps[1..] == Pairs(t.content)[(i + 2) / 2..];
      MembersAreLookups(t, i + 2, k);
    }
  }

  /** What the members of the merge are, entry by entry. */
  function LookupMerged(ps: seq<Pair>, es: seq<Pair>, k: string): Option<Tree> {
    match (Lookup(ps, k), Lookup(es, k))
    case (v, None) => v
    case (None, Some(n)) => if IsNull(n.at) then None else Some(n)
    case (Some(v), Some(n)) => if IsNull(n.at) then None else Some(Merge(v, n))
  }

  lemma {:induction false} LookupAppend(a: seq<Pair>, b: seq<Pair>, k: string)
    ensures Lookup(a + b, k) == if Lookup(a, k).Some? then Lookup(a, k) else Lookup(b, k)
    decreases |a|
  {
    if a == [] {
      assert a + b == b;
    } else {
      assert (a + b)[1..] == a[1..] + b;
      LookupAppend(a[1..], b, k);
    }
  }

  lemma {:induction false} LookupSurvivors(ps: seq<Pair>, es: seq<Pair>, k: string)
    ensures Lookup(Survivors(ps, es), k) == if HasKey(ps, k) then LookupMerged(ps, es, k) else None
    decreases |ps|
  {
    if ps != [] {
      var kept := Kept(ps[0], Lookup(es, Key(ps[0])));
      LookupSurvivors(ps[1..], es, k);
      LookupAppend(kept, Survivors(ps[1..], es), k);
      assert Lookup(ps, k).Some? <==> HasKey(ps, k);
      assert Lookup(ps[1..], k).Some? <==> HasKey(ps[1..], k);
    }
  }

  lemma {:induction false} LookupNewcomers(ps: seq<Pair>, es: seq<Pair>, k: string)
    requires Distinct(es)
    ensures Lookup(Newcomers(ps, es), k) == if HasKey(ps, k) then None else LookupMerged([], es, k)
    decreases |es|
  {
    if es != [] {
      var init, e := es[..|es| - 1], es[|es| - 1];
      assert es == init + [e];
      EarlierKeysDiffer(es);
      LookupNewcomers(ps, init, k);
      LookupSnoc(init, e, k);
      LookupAppend(Newcomers(ps, init), if HasKey(ps, Key(e)) || IsNull(e.val.at) then [] else [e], k);
    }
  }

  lemma LookupIn(t: Tree, k: string) returns (j: nat)
    requires WellFormed(t) && t.at.kind.Mapping? && Lookup(Pairs(t.content), k).Some?
    ensures j < |t.content| / 2 && Lookup(Pairs(t.content), k) == Some(t.content[2 * j + 1])
    ensures WellFormed(t.content[2 * j + 1])
  {
    j := LookupAt(Pairs(t.content), k);
  }

  lemma {:induction false} LookupAt(ps: seq<Pair>, k: string) returns (j: nat)
    requires Lookup(ps, k).Some?
    ensures j < |ps| && Lookup(ps, k) == Some(ps[j].val)
    decreases |ps|
  {
    if Key(ps[0]) == k {
      j := 0;
    } else {
      j := LookupAt(ps[1..], k);
      j := j + 1;
    }
  }

  lemma MembersMerged(b: Tree, p: Tree, k: string)
    requires WellFormed(b) && WellFormed(p) && b.at.kind.Mapping? && p.at.kind.Mapping?
    ensures var v := LookupMerged(Pairs(b.content), Pairs(p.content), k);
            Get(MembersFrom(Merge(b, p), 0), k) == if v.Some? then Some(Value(v.value)) else None
  {
    var r := Merge(b, p);
    var ps, es := Pairs(b.content), Pairs(p.content);
    MergeInOrder(b, p);
    MembersAreLookups(r, 0, k);
    assert Pairs(r.content)[0..] == Pairs(r.content);
    LookupAppend(Survivors(ps, es), Newcomers(ps, es), k);
    LookupSurvivors(ps, es, k);
    LookupNewcomers(ps, es, k);
  }

  lemma MemberValue(t: Tree, k: string)
    requires WellFormed(t) && t.at.kind.Mapping?
    ensures var v := Lookup(Pairs(t.content), k);
            Get(MembersOf(Some(Value(t))), k) == if v.Some? then Some(Value(v.value)) else None
  {
    MembersAreLookups(t, 0, k);
    assert Pairs(t.content)[0..] == Pairs(t.content);
  }

  /** One member of the merge of two objects. */
  function MemberMerged(x: Option<Val>, y: Option<Val>): Option<Val> {
    if y.None? then x else if y.value.Null? then None else Some(CodeMerge(x, y.value))
  }

  lemma CodeMember(t: map<string, Val>, pm: map<string, Val>, k: string)
    ensures Get(CodeMerge(Some(Obj(t)), Obj(pm)).members, k) == MemberMerged(Get(t, k), Get(pm, k))
  {
  }

  lemma MemberSays(b: Tree, p: Tree, k: string)
    requires WellFormed(b) && WellFormed(p) && b.at.kind.Mapping? && p.at.kind.Mapping?
    requires forall i, j | 0 <= i < |b.content| / 2 && 0 <= j < |p.content| / 2 ::
      Value(Merge(b.content[2 * i + 1], p.content[2 * j + 1]))
        == CodeMerge(Some(Value(b.content[2 * i + 1])), Value(p.content[2 * j + 1]))
    ensures Get(MembersFrom(Merge(b, p), 0), k) == Get(CodeMerge(Some(Value(b)), Value(p)).members, k)
  {
    MembersMerged(b, p, k);
    MemberValue(b, k);
    MemberValue(p, k);
    CodeMember(MembersFrom(b, 0), MembersFrom(p, 0), k);
    if Lookup(Pairs(p.content), k).Some? && Lookup(Pairs(b.content), k).Some? {
      var j := LookupIn(p, k);
      var i := LookupIn(b, k);
    }
  }

  /** The merged tree says exactly the merge of what the two trees say. */
  lemma {:induction false} MergeSays(b: Tree, p: Tree)
    requires WellFormed(b) && WellFormed(p)
    ensures Value(Merge(b, p)) == CodeMerge(Some(Value(b)), Value(p))
    decreases p
  {
    if b.at.kind.Mapping? && p.at.kind.Mapping? {
      forall i, j | 0 <= i < |b.content| / 2 && 0 <= j < |p.content| / 2
        ensures Value(Merge(b.content[2 * i + 1], p.content[2 * j + 1]))
             == CodeMerge(Some(Value(b.content[2 * i + 1])), Value(p.content[2 * j + 1]))
      {
        MergeSays(b.content[2 * i + 1], p.content[2 * j + 1]);
      }
      forall k ensures Get(MembersFrom(Merge(b, p), 0), k) == Get(CodeMerge(Some(Value(b)), Value(p)).members, k) {
        MemberSays(b, p, k);
      }
      SameMap(MembersFrom(Merge(b, p), 0), CodeMerge(Some(Value(b)), Value(p)).members);
      MergeInOrder(b, p);
    }
  }

  lemma SameMap(m: map<string, Val>, n: map<string, Val>)
    requires forall k :: Get(m, k) == Get(n, k)
    ensures m == n
  {
    assert forall k :: k in m <==> Get(m, k).Some?;
    assert forall k :: k in n <==> Get(n, k).Some?;
    forall k | k in m ensures k in n && m[k] == n[k] {
      assert Get(m, k) == Get(n, k);
    }
  }

  // ---------------------------------------------------------------------
  // Well-formed trees merge to well-formed trees
  // ---------------------------------------------------------------------

  lemma {:induction false} SurvivorsWellFormed(ps: seq<Pair>, es: seq<Pair>)
    requires Distinct(ps)
    requires forall i, j | 0 <= i < |ps| && 0 <= j < |es| :: WellFormed(Merge(ps[i].val, es[j].val))
    requires WellFormedValues(ps)
    ensures Distinct(Survivors(ps, es)) && WellFormedValues(Survivors(ps, es))
    decreases |ps|
  {
    if ps != [] {
      var x, rest := ps[0], ps[1..];
      RestLacks(ps);
      SurvivorsWellFormed(rest, es);
      if Lookup(es, Key(x)).Some? {
        var j := LookupAt(es, Key(x));
      }
      var s := Survivors(rest, es);
      forall i | 0 <= i < |s| ensures Key(s[i]) != Key(x) {
        if Key(s[i]) == Key(x) {
          SurvivorKeys(rest, es, Key(x));
          assert false;
        }
      }
    }
  }

  lemma {:induction false} NewcomersWellFormed(ps: seq<Pair>, es: seq<Pair>)
    requires Distinct(es) && WellFormedValues(es)
    ensures Distinct(Newcomers(ps, es)) && WellFormedValues(Newcomers(ps, es))
    decreases |es|
  {
    if es != [] {
      var init, e := es[..|es| - 1], es[|es| - 1];
      NewcomersWellFormed(ps, init);
      EarlierKeysDiffer(es);
      var n := Newcomers(ps, init);
      forall i | 0 <= i < |n| ensures Key(n[i]) != Key(e) {
        if Key(n[i]) == Key(e) {
          NewcomerKeys(ps, init, Key(e));
          assert false;
        }
      }
    }
  }

  lemma EntriesWellFormed(ps: seq<Pair>, es: seq<Pair>)
    requires Distinct(ps) && Distinct(es) && WellFormedValues(ps) && WellFormedValues(es)
    requires forall i, j | 0 <= i < |ps| && 0 <= j < |es| :: WellFormed(Merge(ps[i].val, es[j].val))
    ensures Distinct(Survivors(ps, es) + Newcomers(ps, es))
    ensures WellFormedValues(Survivors(ps, es) + Newcomers(ps, es))
  {
    SurvivorsWellFormed(ps, es);
    NewcomersWellFormed(ps, es);
    var s, n := Survivors(ps, es), Newcomers(ps, es);
    forall i, j | 0 <= i < |s| && 0 <= j < |n| ensures Key(s[i]) != Key(n[j]) {
      assert HasKey(s, Key(s[i])) && HasKey(n, Key(n[j]));
      SurvivorKeys(ps, es, Key(s[i]));
      NewcomerKeys(ps, es, Key(n[j]));
    }
  }

  lemma FromEntries(t: Tree)
    requires t.at.kind.Mapping? && !IsNull(t.at) && |t.content| % 2 == 0
    ensures WellFormed(t) <==> Distinct(Pairs(t.content)) && WellFormedValues(Pairs(t.content))
  {
    var ps := Pairs(t.content);
    if WellFormed(t) {
      forall j | 0 <= j < |ps| ensures WellFormed(ps[j].val) {
        assert ps[j].val == t.content[2 * j + 1];
      }
    }
    if WellFormedValues(ps) {
      forall j | 0 <= j < |t.content| / 2 ensures WellFormed(t.content[2 * j + 1]) {
        assert ps[j].val == t.content[2 * j + 1];
      }
    }
  }

  /** Keys stay unique, at every depth. */
  lemma {:induction false} MergeKeepsWellFormed(b: Tree, p: Tree)
    requires WellFormed(b) && WellFormed(p)
    ensures WellFormed(Merge(b, p))
    decreases p
  {
    if b.at.kind.Mapping? && p.at.kind.Mapping? {
      var ps, es := Pairs(b.content), Pairs(p.content);
      FromEntries(b);
      FromEntries(p);
      forall i, j | 0 <= i < |ps| && 0 <= j < |es| ensures WellFormed(Merge(ps[i].val, es[j].val)) {
        MergeKeepsWellFormed(b.content[2 * i + 1], p.content[2 * j + 1]);
      }
      MergeInOrder(b, p);
      EntriesWellFormed(ps, es);
      FromEntries(Merge(b, p));
    }
  }

  // ---------------------------------------------------------------------
  // Order: a merge that says nothing new moves nothing
  // ---------------------------------------------------------------------

  /** What a tree says, with the entries of its mappings in order. */
  datatype Ordered = OrderedNull | OrderedObj(entries: seq<Entry>) | OrderedLeaf(plain: Plain)

  datatype Entry = Entry(key: string, val: Ordered)

  function OrderedValue(t: Tree): Ordered {
    if IsNull(t.at) then OrderedNull
    else if t.at.kind.Mapping? then
      OrderedObj(seq(|t.content| / 2, j requires 0 <= j < |t.content| / 2 =>
                   Entry(t.content[2 * j].at.value, OrderedValue(t.content[2 * j + 1]))))
    else OrderedLeaf(Copy(t))
  }

  /** Forgetting the order. */
  function Forget(o: Ordered): Val {
    match o
    case OrderedNull => Null
    case OrderedObj(entries) => Obj(ForgetFrom(entries))
    case OrderedLeaf(plain) => Leaf(plain)
  }

  function ForgetFrom(entries: seq<Entry>): map<string, Val> {
    if entries == [] then map[]
    else ForgetFrom(entries[1..])[entries[0].key := Forget(entries[0].val)]
  }

  lemma {:induction false} ForgetsToValue(t: Tree)
    ensures Forget(OrderedValue(t)) == Value(t)
    decreases t, |t.content| + 1
  {
    if !IsNull(t.at) && t.at.kind.Mapping? {
      ForgetsToMembers(t, 0);
      assert OrderedValue(t).entries[0..] == OrderedValue(t).entries;
    }
  }

  lemma {:induction false} ForgetsToMembers(t: Tree, j: nat)
    requires !IsNull(t.at) && t.at.kind.Mapping? && j <= |t.content| / 2
    ensures ForgetFrom(OrderedValue(t).entries[j..]) == MembersFrom(t, 2 * j)
    decreases t, |t.content| - 2 * j
  {
    if j < |t.content| / 2 {
      var entries := OrderedValue(t).entries;
      assert entries[j..][1..] == entries[j + 1..];
      ForgetsToValue(t.content[2 * j + 1]);
      ForgetsToMembers(t, j + 1);
    }
  }

  function Entries(ps: seq<Pair>): seq<Entry> {
    seq(|ps|, j requires 0 <= j < |ps| => Entry(Key(ps[j]), OrderedValue(ps[j].val)))
  }

  /** What the patch has for an entry leaves the entry as it is. */
  ghost predicate KeptAsItIs(x: Pair, v: Option<Tree>) {
    v.Some? ==> !IsNull(v.value.at) && OrderedValue(Merge(x.val, v.value)) == OrderedValue(x.val)
  }

  lemma {:induction false} SurvivorsAsTheyWere(ps: seq<Pair>, es: seq<Pair>)
    requires forall x | x in ps :: KeptAsItIs(x, Lookup(es, Key(x)))
    ensures Entries(Survivors(ps, es)) == Entries(ps)
    decreases |ps|
  {
    if ps != [] {
      assert ps[0] in ps;
      SurvivorsAsTheyWere(ps[1..], es);
      var kept := Kept(ps[0], Lookup(es, Key(ps[0])));
      EntriesAppend(kept, Survivors(ps[1..], es));
      EntriesAppend([ps[0]], ps[1..]);
      assert [ps[0]] + ps[1..] == ps;
    }
  }

  lemma EntriesAppend(a: seq<Pair>, b: seq<Pair>)
    ensures Entries(a + b) == Entries(a) + Entries(b)
  {
  }

  lemma {:induction false} LookupHere(ps: seq<Pair>, i: nat)
    requires Distinct(ps) && i < |ps|
    ensures Lookup(ps, Key(ps[i])) == Some(ps[i].val)
    decreases |ps|
  {
    if i > 0 {
      RestLacks(ps);
      LookupHere(ps[1..], i - 1);
    }
  }

  /** Base and merge say the same, so they have the same keys with the same values. */
  lemma SameUnder(r: Tree, p: Tree, k: string)
    requires WellFormed(r) && WellFormed(p) && r.at.kind.Mapping? && p.at.kind.Mapping?
    requires Value(Merge(r, p)) == Value(r)
    ensures var v, v' := Lookup(Pairs(r.content), k), LookupMerged(Pairs(r.content), Pairs(p.content), k);
      (v.Some? <==> v'.Some?) && (v.Some? ==> Value(v.value) == Value(v'.value))
  {
    MergeInOrder(r, p);
    MembersMerged(r, p, k);
    MemberValue(r, k);
  }

  lemma NoNewcomers(r: Tree, p: Tree)
    requires WellFormed(r) && WellFormed(p) && r.at.kind.Mapping? && p.at.kind.Mapping?
    requires Value(Merge(r, p)) == Value(r)
    ensures Newcomers(Pairs(r.content), Pairs(p.content)) == []
  {
    var ps, es := Pairs(r.content), Pairs(p.content);
    var n := Newcomers(ps, es);
    if n != [] {
      var k := Key(n[0]);
      assert HasKey(n, k);
      NewcomerKeys(ps, es, k);
      LookupNewcomers(ps, es, k);
      SameUnder(r, p, k);
      assert false;
    }
  }

  lemma OrderFromEntries(r: Tree, p: Tree)
    requires WellFormed(r) && WellFormed(p) && r.at.kind.Mapping? && p.at.kind.Mapping?
    requires Newcomers(Pairs(r.content), Pairs(p.content)) == []
    requires forall x | x in Pairs(r.content) :: KeptAsItIs(x, Lookup(Pairs(p.content), Key(x)))
    ensures OrderedValue(Merge(r, p)) == OrderedValue(r)
  {
    SurvivorsAsTheyWere(Pairs(r.content), Pairs(p.content));
    MergeInOrder(r, p);
    EntriesOf(r);
    EntriesOf(Merge(r, p));
  }

  /** A merge that leaves what a tree says leaves the order of its entries too, at
      every depth. */
  lemma {:induction false} NothingNewMovesNothing(r: Tree, p: Tree)
    requires WellFormed(r) && WellFormed(p) && Value(Merge(r, p)) == Value(r)
    ensures OrderedValue(Merge(r, p)) == OrderedValue(r)
    decreases p, 1
  {
    if r.at.kind.Mapping? && p.at.kind.Mapping? {
      forall x | x in Pairs(r.content) ensures KeptAsItIs(x, Lookup(Pairs(p.content), Key(x))) {
        var i :| 0 <= i < |Pairs(r.content)| && Pairs(r.content)[i] == x;
        EntryMovesNothing(r, p, i);
      }
      NoNewcomers(r, p);
      OrderFromEntries(r, p);
    }
  }

  lemma {:induction false} EntryMovesNothing(r: Tree, p: Tree, i: nat)
    requires WellFormed(r) && WellFormed(p) && r.at.kind.Mapping? && p.at.kind.Mapping?
    requires Value(Merge(r, p)) == Value(r) && i < |Pairs(r.content)|
    ensures var x := Pairs(r.content)[i]; KeptAsItIs(x, Lookup(Pairs(p.content), Key(x)))
    decreases p, 0
  {
    var x := Pairs(r.content)[i];
    LookupHere(Pairs(r.content), i);
    SameUnder(r, p, Key(x));
    if Lookup(Pairs(p.content), Key(x)).Some? {
      var j := LookupIn(p, Key(x));
      NothingNewMovesNothing(x.val, p.content[2 * j + 1]);
    }
  }

  lemma EntriesOf(t: Tree)
    requires !IsNull(t.at) && t.at.kind.Mapping?
    ensures OrderedValue(t) == OrderedObj(Entries(Pairs(t.content)))
  {
  }

  // ---------------------------------------------------------------------
  // The two laws of the merge
  // ---------------------------------------------------------------------

  /** mergeNodes computes the merge patch of RFC 7386 if and only if no null sits
      inside a patch mapping that lands where the base has no mapping. */
  lemma MergeIsMergePatch(b: Tree, p: Tree)
    requires WellFormed(Unwrap(b)) && WellFormed(Unwrap(p))
    ensures var base, patch := Some(Value(Unwrap(b))), Value(Unwrap(p));
            Value(Merge(b, p)) == MergePatch7386(base, patch) <==> Clean(base, patch)
  {
    MergeSays(Unwrap(b), Unwrap(p));
    ExactlyWhenClean(Some(Value(Unwrap(b))), Value(Unwrap(p)));
  }

  /** Merging a patch that says the same again changes nothing, the order of the
      entries included, if and only if the same condition held the first time. */
  lemma MergeAgainChangesNothing(b: Tree, p: Tree, p2: Tree)
    requires WellFormed(Unwrap(b)) && WellFormed(Unwrap(p)) && WellFormed(Unwrap(p2))
    requires Value(Unwrap(p2)) == Value(Unwrap(p))
    ensures OrderedValue(Merge(Merge(b, p), p2)) == OrderedValue(Merge(b, p))
       <==> Clean(Some(Value(Unwrap(b))), Value(Unwrap(p)))
  {
    var ub, up, up2 := Unwrap(b), Unwrap(p), Unwrap(p2);
    var once := Merge(ub, up);
    MergeSays(ub, up);
    MergeKeepsWellFormed(ub, up);
    MergeSays(once, up2);
    AgainExactlyWhenClean(Some(Value(ub)), Value(up));
    ForgetsToValue(once);
    ForgetsToValue(Merge(once, up2));
    if Value(Merge(once, up2)) == Value(once) {
      NothingNewMovesNothing(once, up2);
    }
  }

  /** A null inside a patch mapping that is new to the base survives the merge. */
  lemma NullInNewMapping()
    ensures var patch := Obj(map["a" := Obj(map["b" := Null])]);
            CodeMerge(Some(Obj(map[])), patch) != MergePatch7386(Some(Obj(map[])), patch)
  {
    var inner := Obj(map["b" := Null]);
    var patch := Obj(map["a" := inner]);
    var base := Some(Obj(map[]));
    assert !Clean(None, inner) by {
      assert "b" in inner.members && inner.members["b"].Null?;
    }
    assert !Clean(base, patch) by {
      assert "a" in patch.members && Get(MembersOf(base), "a") == None;
    }
    ExactlyWhenClean(base, patch);
  }
}
