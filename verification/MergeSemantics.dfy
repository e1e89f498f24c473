/** What the in-place merge computes: the entries of the patch applied one after
  the other, and all at once (internal/tool/configtool/merge.go). */
module MergeSemantics {
  import opened Options
  import opened MergePatch
  import opened Sequences

  // ---------------------------------------------------------------------
  // Entries of a mapping
  // ---------------------------------------------------------------------

  datatype Pair = Pair(key: Tree, val: Tree)

  function Key(x: Pair): string { x.key.at.value }

  function Pairs(c: seq<Tree>): seq<Pair> {
    seq(|c| / 2, j requires 0 <= j < |c| / 2 => Pair(c[2 * j], c[2 * j + 1]))
  }

  predicate Distinct(ps: seq<Pair>) {
    forall i, j | 0 <= i < j < |ps| :: Key(ps[i]) != Key(ps[j])
  }

  predicate HasKey(ps: seq<Pair>, key: string) { exists j | 0 <= j < |ps| :: Key(ps[j]) == key }

  function Lookup(ps: seq<Pair>, key: string): (v: Option<Tree>)
    ensures v.Some? <==> HasKey(ps, key)
  {
    if ps == [] then None
    else if Key(ps[0]) == key then assert HasKey(ps, key); Some(ps[0].val)
    else
      var v := Lookup(ps[1..], key);
      assert HasKey(ps, key) <==> HasKey(ps[1..], key) by {
        if j :| 0 <= j < |ps| && Key(ps[j]) == key {
          assert Key(ps[1..][j - 1]) == key;
        }
        if j :| 0 <= j < |ps[1..]| && Key(ps[1..][j]) == key {
          assert Key(ps[j + 1]) == key;
        }
      }
      v
  }

  /** One entry of the patch, applied to the entries of a mapping. */
  function Upsert(ps: seq<Pair>, e: Pair): seq<Pair> {
    if ps == [] then (if IsNull(e.val.at) then [] else [e])
    else if Key(ps[0]) == Key(e) then
      (if IsNull(e.val.at) then [] else [Pair(ps[0].key, Merge(ps[0].val, e.val))]) + ps[1..]
    else [ps[0]] + Upsert(ps[1..], e)
  }

  lemma {:induction false} UpsertMissing(ps: seq<Pair>, e: Pair)
    requires !HasKey(ps, Key(e))
    ensures Upsert(ps, e) == if IsNull(e.val.at) then ps else ps + [e]
    decreases |ps|
  {
    if ps != [] {
      assert Key(ps[0]) != Key(e);
      assert !HasKey(ps[1..], Key(e)) by {
        assert Lookup(ps, Key(e)) == Lookup(ps[1..], Key(e));
      }
      UpsertMissing(ps[1..], e);
    }
  }

  /** Position m holds the first entry with e's key. */
  predicate FirstAt(ps: seq<Pair>, e: Pair, m: int) {
    0 <= m < |ps| && Key(ps[m]) == Key(e) && forall j | 0 <= j < m :: Key(ps[j]) != Key(e)
  }

  lemma ConsEdits<T>(s: seq<T>, m: nat, x: T)
    requires 0 < m < |s|
    ensures [s[0]] + (s[1..][..m - 1] + s[1..][m..]) == s[..m] + s[m + 1..]
    ensures [s[0]] + s[1..][m - 1 := x] == s[m := x]
  {
  }

  lemma {:induction false} UpsertFirst(ps: seq<Pair>, e: Pair, m: nat, v: Tree)
    requires FirstAt(ps, e, m) && v == Merge(ps[m].val, e.val)
    ensures IsNull(e.val.at) ==> Upsert(ps, e) == ps[..m] + ps[m + 1..]
    ensures !IsNull(e.val.at) ==> Upsert(ps, e) == ps[m := Pair(ps[m].key, v)]
    decreases m
  {
    if m > 0 {
      UpsertFirst(ps[1..], e, m - 1, v);
      ConsEdits(ps, m, Pair(ps[m].key, v));
    }
  }

  lemma {:induction false} FindKeyIsFirst(c: seq<Tree>, key: string, i: nat)
    requires i % 2 == 0 && |c| % 2 == 0
    ensures var r := FindKey(c, key, i);
            if r < 0 then forall j | i / 2 <= j < |Pairs(c)| :: Key(Pairs(c)[j]) != key
            else r % 2 == 0 && Key(Pairs(c)[r / 2]) == key && forall j | i / 2 <= j < r / 2 :: Key(Pairs(c)[j]) != key
    decreases |c| - i
  {
    if i < |c| - 1 && c[i].at.value != key {
      FindKeyIsFirst(c, key, i + 2);
      assert Pairs(c)[i / 2].key == c[i];
    }
  }

  lemma PairsWithout(c: seq<Tree>, m: nat)
    requires |c| % 2 == 0 && 2 * m + 1 < |c|
    ensures Pairs(c[..2 * m] + c[2 * m + 2..]) == Pairs(c)[..m] + Pairs(c)[m + 1..]
  {
    var d := c[..2 * m] + c[2 * m + 2..];
    assert forall k | 0 <= k < |d| :: d[k] == c[if k < 2 * m then k else k + 2];
  }

  /** The key search over the flat content, as a search over the entries. */
  lemma FindEntry(c: seq<Tree>, key: string) returns (m: int)
    requires |c| % 2 == 0
    ensures m < 0 ==> FindKey(c, key, 0) < 0 && !HasKey(Pairs(c), key)
    ensures m >= 0 ==>
      && FindKey(c, key, 0) == 2 * m && 2 * m + 1 < |c| && m < |Pairs(c)|
      && Key(Pairs(c)[m]) == key && forall j | 0 <= j < m :: Key(Pairs(c)[j]) != key
  {
    FindKeyIsFirst(c, key, 0);
    var idx := FindKey(c, key, 0);
    m := if idx < 0 then -1 else idx / 2;
  }

  lemma RemovalIsUpsert(c: seq<Tree>, e: Pair, m: nat)
    requires |c| % 2 == 0 && 2 * m + 1 < |c| && FirstAt(Pairs(c), e, m) && IsNull(e.val.at)
    ensures var d := c[..2 * m] + c[2 * m + 2..]; |d| % 2 == 0 && Pairs(d) == Upsert(Pairs(c), e)
  {
    assert |c[..2 * m] + c[2 * m + 2..]| == |c| - 2;
    UpsertFirst(Pairs(c), e, m, Merge(Pairs(c)[m].val, e.val));
    PairsWithout(c, m);
  }

  lemma ReplacementIsUpsert(c: seq<Tree>, e: Pair, m: nat, v: Tree)
    requires |c| % 2 == 0 && 2 * m + 1 < |c| && FirstAt(Pairs(c), e, m) && !IsNull(e.val.at)
    requires v == Merge(c[2 * m + 1], e.val)
    ensures var d := c[2 * m + 1 := v]; |d| % 2 == 0 && Pairs(d) == Upsert(Pairs(c), e)
  {
    UpsertFirst(Pairs(c), e, m, v);
  }

  lemma AdditionIsUpsert(c: seq<Tree>, e: Pair)
    requires |c| % 2 == 0 && !HasKey(Pairs(c), Key(e))
    ensures var d := if IsNull(e.val.at) then c else c + [e.key, e.val];
            |d| % 2 == 0 && Pairs(d) == Upsert(Pairs(c), e)
  {
    assert |c + [e.key, e.val]| == |c| + 2;
    UpsertMissing(Pairs(c), e);
  }

  /** What one pass of the loop makes of the content. */
  lemma EntryContent(b: Tree, key: Tree, val: Tree, m: int)
    requires var idx := FindKey(b.content, key.at.value, 0); if m < 0 then idx < 0 else idx == 2 * m
    ensures var c, r := b.content, MergeEntry(b, key, val).content;
      && (m < 0 ==> r == if IsNull(val.at) then c else c + [key, val])
      && (m >= 0 && IsNull(val.at) ==> 2 * m + 2 <= |c| && r == c[..2 * m] + c[2 * m + 2..])
      && (m >= 0 && !IsNull(val.at) ==> 2 * m + 2 <= |c| && r == c[2 * m + 1 := Merge(c[2 * m + 1], val)])
  {
  }

  lemma EntryIsUpsert(b: Tree, key: Tree, val: Tree)
    requires |b.content| % 2 == 0
    ensures |MergeEntry(b, key, val).content| % 2 == 0
    ensures Pairs(MergeEntry(b, key, val).content) == Upsert(Pairs(b.content), Pair(key, val))
  {
    var c, e := b.content, Pair(key, val);
    var m := FindEntry(c, key.at.value);
    EntryContent(b, key, val, m);
    if m < 0 {
      AdditionIsUpsert(c, e);
    } else if IsNull(val.at) {
      RemovalIsUpsert(c, e, m);
    } else {
      ReplacementIsUpsert(c, e, m, Merge(c[2 * m + 1], val));
    }
  }

  function UpsertAll(ps: seq<Pair>, es: seq<Pair>): seq<Pair>
    decreases |es|
  {
    if es == [] then ps else Upsert(UpsertAll(ps, es[..|es| - 1]), es[|es| - 1])
  }

  lemma UpsertNext(ps: seq<Pair>, es: seq<Pair>, j: nat)
    requires j < |es|
    ensures UpsertAll(ps, es[..j + 1]) == Upsert(UpsertAll(ps, es[..j]), es[j])
  {
    assert es[..j + 1][..j] == es[..j];
  }

  lemma EntryIsNext(ps: seq<Pair>, p: Tree, cur: Tree, j: nat)
    requires 2 * j + 1 < |p.content| && |cur.content| % 2 == 0
    requires Pairs(cur.content) == UpsertAll(ps, Pairs(p.content)[..j])
    ensures var r := MergeEntry(cur, p.content[2 * j], p.content[2 * j + 1]);
            |r.content| % 2 == 0 && Pairs(r.content) == UpsertAll(ps, Pairs(p.content)[..j + 1])
  {
    EntryIsUpsert(cur, p.content[2 * j], p.content[2 * j + 1]);
    UpsertNext(ps, Pairs(p.content), j);
  }

  lemma MergeFromNext(p: Tree, cur: Tree, j: nat)
    requires 2 * j + 1 < |p.content|
    ensures MergeFrom(cur, p, 2 * j)
         == MergeFrom(MergeEntry(cur, p.content[2 * j], p.content[2 * j + 1]), p, 2 * (j + 1))
  {
  }

  /** The loop over the patch, from its entry j on, applies its entries one after
      the other, whatever their keys. */
  lemma {:induction false} MergeFromIsUpsertAll(ps: seq<Pair>, p: Tree, cur: Tree, j: nat)
    requires 2 * j <= |p.content| && |p.content| % 2 == 0 && |cur.content| % 2 == 0
    requires Pairs(cur.content) == UpsertAll(ps, Pairs(p.content)[..j])
    ensures var r := MergeFrom(cur, p, 2 * j);
            |r.content| % 2 == 0 && Pairs(r.content) == UpsertAll(ps, Pairs(p.content))
    decreases |p.content| - j
  {
    if 2 * j == |p.content| {
      assert Pairs(p.content)[..j] == Pairs(p.content);
    } else {
      EntryIsNext(ps, p, cur, j);
      MergeFromNext(p, cur, j);
      MergeFromIsUpsertAll(ps, p, MergeEntry(cur, p.content[2 * j], p.content[2 * j + 1]), j + 1);
    }
  }

  // ---------------------------------------------------------------------
  // All entries at once: survivors in base order, newcomers in patch order
  // ---------------------------------------------------------------------

  function Kept(x: Pair, v: Option<Tree>): seq<Pair> {
    match v
    case None => [x]
    case Some(n) => if IsNull(n.at) then [] else [Pair(x.key, Merge(x.val, n))]
  }

  function Survivors(ps: seq<Pair>, es: seq<Pair>): seq<Pair> {
    if ps == [] then [] else Kept(ps[0], Lookup(es, Key(ps[0]))) + Survivors(ps[1..], es)
  }

  function Newcomers(ps: seq<Pair>, es: seq<Pair>): seq<Pair>
    decreases |es|
  {
    if es == [] then []
    else
      var e := es[|es| - 1];
      Newcomers(ps, es[..|es| - 1]) + (if HasKey(ps, Key(e)) || IsNull(e.val.at) then [] else [e])
  }

  lemma {:induction false} LookupSnoc(es: seq<Pair>, e: Pair, key: string)
    ensures Lookup(es + [e], key)
         == if HasKey(es, key) then Lookup(es, key) else if Key(e) == key then Some(e.val) else None
    decreases |es|
  {
    if es == [] {
      assert es + [e] == [e];
      assert [e][1..] == [];
    } else {
      assert (es + [e])[1..] == es[1..] + [e];
      LookupSnoc(es[1..], e, key);
      assert Lookup(es, key).Some? <==> HasKey(es, key);
    }
  }

  lemma {:induction false} SurvivorsIgnore(ps: seq<Pair>, es: seq<Pair>, e: Pair)
    requires !HasKey(ps, Key(e))
    ensures Survivors(ps, es + [e]) == Survivors(ps, es)
    decreases |ps|
  {
    if ps != [] {
      assert Lookup(ps, Key(e)) == Lookup(ps[1..], Key(e)) && Key(ps[0]) != Key(e);
      LookupSnoc(es, e, Key(ps[0]));
      SurvivorsIgnore(ps[1..], es, e);
    }
  }

  lemma UpsertHere(x: Pair, rest: seq<Pair>, e: Pair)
    requires Key(x) == Key(e)
    ensures Upsert([x] + rest, e) == Kept(x, Some(e.val)) + rest
  {
    assert ([x] + rest)[1..] == rest;
  }

  lemma UpsertPast(kept: seq<Pair>, rest: seq<Pair>, e: Pair)
    requires |kept| <= 1 && forall j | 0 <= j < |kept| :: Key(kept[j]) != Key(e)
    ensures Upsert(kept + rest, e) == kept + Upsert(rest, e)
  {
    if kept == [] {
      assert kept + rest == rest;
    } else {
      assert (kept + rest)[1..] == rest;
    }
  }

  lemma RestLacks(ps: seq<Pair>)
    requires ps != [] && Distinct(ps)
    ensures Distinct(ps[1..]) && !HasKey(ps[1..], Key(ps[0]))
  {
    forall j | 0 <= j < |ps[1..]| ensures Key(ps[1..][j]) != Key(ps[0]) {
      assert ps[1..][j] == ps[j + 1];
    }
  }

  lemma {:induction false} UpsertSurvivor(ps: seq<Pair>, es: seq<Pair>, e: Pair, tail: seq<Pair>)
    requires Distinct(ps) && HasKey(ps, Key(e)) && !HasKey(es, Key(e))
    ensures Upsert(Survivors(ps, es) + tail, e) == Survivors(ps, es + [e]) + tail
    decreases |ps|
  {
    var x, rest := ps[0], ps[1..];
    RestLacks(ps);
    LookupSnoc(es, e, Key(x));
    var kept := Kept(x, Lookup(es, Key(x)));
    Assoc(kept, Survivors(rest, es), tail);
    if Key(x) == Key(e) {
      SurvivorsIgnore(rest, es, e);
      UpsertHere(x, Survivors(rest, es) + tail, e);
      Assoc(Kept(x, Some(e.val)), Survivors(rest, es), tail);
    } else {
      assert Lookup(ps, Key(e)) == Lookup(rest, Key(e));
      UpsertSurvivor(rest, es, e, tail);
      UpsertPast(kept, Survivors(rest, es) + tail, e);
      Assoc(kept, Survivors(rest, es + [e]), tail);
    }
  }

  lemma {:induction false} SurvivorKeys(ps: seq<Pair>, es: seq<Pair>, key: string)
    requires HasKey(Survivors(ps, es), key)
    ensures HasKey(ps, key)
    decreases |ps|
  {
    var all := Survivors(ps, es);
    var j :| 0 <= j < |all| && Key(all[j]) == key;
    var kept := Kept(ps[0], Lookup(es, Key(ps[0])));
    if j < |kept| {
      assert Key(ps[0]) == key;
    } else {
      assert Survivors(ps[1..], es)[j - |kept|] == all[j];
      SurvivorKeys(ps[1..], es, key);
      var i :| 0 <= i < |ps[1..]| && Key(ps[1..][i]) == key;
      assert Key(ps[i + 1]) == key;
    }
  }

  lemma {:induction false} NewcomerKeys(ps: seq<Pair>, es: seq<Pair>, key: string)
    requires HasKey(Newcomers(ps, es), key)
    ensures HasKey(es, key) && !HasKey(ps, key)
    decreases |es|
  {
    var all, init := Newcomers(ps, es), es[..|es| - 1];
    var j :| 0 <= j < |all| && Key(all[j]) == key;
    if j < |Newcomers(ps, init)| {
      assert Newcomers(ps, init)[j] == all[j];
      NewcomerKeys(ps, init, key);
      var i :| 0 <= i < |init| && Key(init[i]) == key;
      assert Key(es[i]) == key;
    } else {
      assert all[j] == es[|es| - 1];
    }
  }

  lemma OldKeysOnly(ps: seq<Pair>, es: seq<Pair>, key: string)
    requires !HasKey(ps, key) && !HasKey(es, key)
    ensures !HasKey(Survivors(ps, es) + Newcomers(ps, es), key)
  {
    var s, n := Survivors(ps, es), Newcomers(ps, es);
    if HasKey(s, key) {
      SurvivorKeys(ps, es, key);
    }
    if HasKey(n, key) {
      NewcomerKeys(ps, es, key);
    }
    forall j | 0 <= j < |s + n| ensures Key((s + n)[j]) != key {
      assert j < |s| ==> (s + n)[j] == s[j];
      assert j >= |s| ==> (s + n)[j] == n[j - |s|];
    }
  }

  lemma EarlierKeysDiffer(es: seq<Pair>)
    requires es != [] && Distinct(es)
    ensures !HasKey(es[..|es| - 1], Key(es[|es| - 1]))
  {
  }

  /** One more entry of the patch, applied to the survivors and newcomers so far. */
  lemma OneMoreEntry(ps: seq<Pair>, init: seq<Pair>, e: Pair, s: seq<Pair>, n: seq<Pair>)
    requires Distinct(ps) && !HasKey(init, Key(e))
    requires s == Survivors(ps, init) && n == Newcomers(ps, init)
    ensures Upsert(s + n, e)
         == Survivors(ps, init + [e]) + (n + if HasKey(ps, Key(e)) || IsNull(e.val.at) then [] else [e])
  {
    if HasKey(ps, Key(e)) {
      UpsertSurvivor(ps, init, e, n);
      assert n + [] == n;
    } else {
      SurvivorsIgnore(ps, init, e);
      OldKeysOnly(ps, init, Key(e));
      UpsertMissing(s + n, e);
      Assoc(s, n, if IsNull(e.val.at) then [] else [e]);
      assert s + n + [] == s + n;
    }
  }

  /** Applying the entries of a patch one after the other is applying them at
      once. */
  lemma {:induction false} AllAtOnce(ps: seq<Pair>, es: seq<Pair>)
    requires Distinct(ps) && Distinct(es)
    ensures UpsertAll(ps, es) == Survivors(ps, es) + Newcomers(ps, es)
    decreases |es|
  {
    if es == [] {
      NothingToDo(ps);
    } else {
      var init, e := es[..|es| - 1], es[|es| - 1];
      assert es == init + [e];
      EarlierKeysDiffer(es);
      AllAtOnce(ps, init);
      OneMoreEntry(ps, init, e, Survivors(ps, init), Newcomers(ps, init));
    }
  }

  lemma {:induction false} NothingToDo(ps: seq<Pair>)
    ensures Survivors(ps, []) == ps
    decreases |ps|
  {
    if ps != [] {
      NothingToDo(ps[1..]);
    }
  }

  // ---------------------------------------------------------------------
  // Well-formed trees
  // ---------------------------------------------------------------------

  /** Mappings have whole entries with unique keys, and only scalars are null. */
  predicate WellFormed(t: Tree)
    decreases t
  {
    && !t.at.kind.Document?
    && (t.at.kind.Mapping? ==>
          && |t.content| % 2 == 0 && !IsNull(t.at) && Distinct(Pairs(t.content))
          && forall j | 0 <= j < |t.content| / 2 :: WellFormed(t.content[2 * j + 1]))
  }

  ghost predicate WellFormedValues(ps: seq<Pair>) {
    forall j | 0 <= j < |ps| :: WellFormed(ps[j].val)
  }

  /** The in-place merge of two mappings: survivors in base order with their own
      key nodes, untouched, merged or replaced, then newcomers in patch order. */
  lemma MergeInOrder(b: Tree, p: Tree)
    requires WellFormed(b) && WellFormed(p) && b.at.kind.Mapping? && p.at.kind.Mapping?
    ensures var r := Merge(b, p);
      && r.at == b.at && |r.content| % 2 == 0
      && Pairs(r.content)
         == Survivors(Pairs(b.content), Pairs(p.content)) + Newcomers(Pairs(b.content), Pairs(p.content))
  {
    var ps, es := Pairs(b.content), Pairs(p.content);
    assert es[..0] == [];
    MergeFromIsUpsertAll(ps, p, b, 0);
    AllAtOnce(ps, es);
  }
}
