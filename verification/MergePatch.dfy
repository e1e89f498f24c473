/** The in-place YAML merge (internal/tool/configtool/merge.go). */
module MergePatch {
  import opened Options

  datatype Kind = Document | Mapping | Sequence | Scalar | Alias

  class YamlNode {
    const kind: Kind
    const tag: string
    const value: string
    var content: seq<YamlNode>

    constructor (kind: Kind, tag: string, value: string, content: seq<YamlNode>)
      ensures this.kind == kind && this.tag == tag && this.value == value && this.content == content
    {
      this.kind, this.tag, this.value, this.content := kind, tag, value, content;
    }
  }

  // ---------------------------------------------------------------------
  // Trees of nodes, and the merge of two trees
  // ---------------------------------------------------------------------

  /** The shape that hangs below a node: which nodes its content leads to. */
  datatype Tree = Tree(at: YamlNode, content: seq<Tree>)

  function Refs(ts: seq<Tree>): seq<YamlNode> {
    seq(|ts|, k requires 0 <= k < |ts| => ts[k].at)
  }

  ghost function Footprint(t: Tree): set<YamlNode> {
    {t.at} + (set c, r | c in t.content && r in Footprint(c) :: r)
  }

  /** The heap holds this tree. */
  ghost predicate Shows(t: Tree)
    reads Footprint(t)
    decreases t
  {
    t.at.content == Refs(t.content) && forall c | c in t.content :: Shows(c)
  }

  /** No node is reached twice. */
  ghost predicate Apart(t: Tree)
    decreases t
  {
    && (forall c | c in t.content :: t.at !in Footprint(c) && Apart(c))
    && (forall i, j | 0 <= i < j < |t.content| :: Footprint(t.content[i]) !! Footprint(t.content[j]))
  }

  predicate IsNull(n: YamlNode) {
    n.tag == "!!null" || (n.kind.Scalar? && n.value == "null" && n.tag == "")
  }

  /** A document node stands for its first child. */
  function Unwrap(t: Tree): Tree {
    if t.at.kind.Document? && |t.content| > 0 then t.content[0] else t
  }

  function FindKey(c: seq<Tree>, key: string, i: nat): (idx: int)
    ensures idx == -1 || (i <= idx < |c| - 1 && c[idx].at.value == key)
    decreases |c| - i
  {
    if i >= |c| - 1 then -1
    else if c[i].at.value == key then i
    else FindKey(c, key, i + 2)
  }

  function Merge(b: Tree, p: Tree): (r: Tree)
    decreases p, |p.content| + 1
  {
    var b', p' := Unwrap(b), Unwrap(p);
    if b'.at.kind.Mapping? && p'.at.kind.Mapping? then MergeFrom(b', p', 0) else p'
  }

  /** The loop over the entries of the patch, from index i on. */
  function MergeFrom(b: Tree, p: Tree, i: nat): (r: Tree)
    ensures r.at == b.at
    decreases p, |p.content| - i
  {
    if i >= |p.content| - 1 then b else MergeFrom(MergeEntry(b, p.content[i], p.content[i + 1]), p, i + 2)
  }

  function MergeEntry(b: Tree, key: Tree, val: Tree): (r: Tree)
    ensures r.at == b.at
    decreases val, |val.content| + 2
  {
    var idx := FindKey(b.content, key.at.value, 0);
    if IsNull(val.at) then
      if idx >= 0 then Tree(b.at, b.content[..idx] + b.content[idx + 2..]) else b
    else if idx >= 0 then
      Tree(b.at, b.content[idx + 1 := Merge(b.content[idx + 1], val)])
    else
      Tree(b.at, b.content + [key, val])
  }

  /** With the two missing cases of mergeNodes. */
  function MergeTops(b: Option<Tree>, p: Option<Tree>): Option<Tree> {
    match (b, p)
    case (None, None) => None
    case (None, Some(p')) => Some(Unwrap(p'))
    case (Some(b'), None) => Some(Unwrap(b'))
    case (Some(b'), Some(p')) => Some(Merge(b', p'))
  }

  // ---------------------------------------------------------------------
  // The code, in place
  // ---------------------------------------------------------------------

  method FindMappingKey(mapping: YamlNode, key: string, ghost t: Tree) returns (idx: int)
    requires mapping.content == Refs(t.content)
    ensures idx == FindKey(t.content, key, 0)
  {
    var i := 0;
    while i < |mapping.content| - 1
      invariant FindKey(t.content, key, i) == FindKey(t.content, key, 0)
    {
      if mapping.content[i].value == key {
        return i;
      }
      i := i + 2;
    }
    return -1;
  }

  ghost predicate Denotes(n: YamlNode?, t: Option<Tree>) {
    match t
    case None => n == null
    case Some(t') => n == t'.at
  }

  ghost function Nodes(t: Option<Tree>): set<YamlNode> { if t.Some? then Footprint(t.value) else {} }

  ghost predicate Holds(t: Option<Tree>)
    reads Nodes(t)
  {
    t.Some? ==> Shows(t.value) && Apart(t.value)
  }

  lemma ChildNodes(t: Tree, k: nat)
    requires k < |t.content|
    ensures Footprint(t.content[k]) <= Footprint(t)
  {
    var c := t.content[k];
    assert c in t.content;
    forall r | r in Footprint(c) ensures r in Footprint(t) {
    }
  }

  lemma Siblings(t: Tree, k: nat, j: nat)
    requires Apart(t) && k < |t.content| && j < |t.content| && k != j
    ensures t.content[j] in t.content && Footprint(t.content[j]) <= Footprint(t)
    ensures Footprint(t.content[j]) !! Footprint(t.content[k])
  {
    ChildNodes(t, j);
    assert if j < k then Footprint(t.content[j]) !! Footprint(t.content[k])
           else Footprint(t.content[k]) !! Footprint(t.content[j]);
  }

  lemma UnwrapHolds(t: Tree)
    requires Shows(t) && Apart(t)
    ensures Shows(Unwrap(t)) && Apart(Unwrap(t)) && Footprint(Unwrap(t)) <= Footprint(t)
  {
    if t.at.kind.Document? && |t.content| > 0 {
      assert t.content[0] in t.content;
      ChildNodes(t, 0);
    }
  }

  /** mergeNodes: the result is the merged tree, built in place from the nodes
      of the two. */
  method MergeNodes(base: YamlNode?, patch: YamlNode?, ghost tb: Option<Tree>, ghost tp: Option<Tree>)
    returns (r: YamlNode?)
    requires Denotes(base, tb) && Denotes(patch, tp) && Holds(tb) && Holds(tp) && Nodes(tb) !! Nodes(tp)
    modifies Nodes(tb) + Nodes(tp)
    ensures Denotes(r, MergeTops(tb, tp)) && Holds(MergeTops(tb, tp))
    ensures Nodes(MergeTops(tb, tp)) <= Nodes(tb) + Nodes(tp)
    decreases Nodes(tp), 3
  {
    var b, p := base, patch;
    ghost var ub, up := tb, tp;
    if b != null {
      UnwrapHolds(tb.value);
      ub := Some(Unwrap(tb.value));
      if b.kind == Document && |b.content| > 0 {
        b := b.content[0];
      }
    }
    if p != null {
      UnwrapHolds(tp.value);
      up := Some(Unwrap(tp.value));
      if p.kind == Document && |p.content| > 0 {
        p := p.content[0];
      }
    }
    if b == null {
      return p;
    }
    if p == null {
      return b;
    }
    if b.kind == Mapping && p.kind == Mapping {
      MergeMappings(b, p, ub.value, up.value);
      return b;
    }
    return p;
  }

  /** A tree whose nodes did not change still stands. */
  twostate lemma {:induction false} StillShows(t: Tree)
    requires old(Shows(t))
    requires forall n | n in Footprint(t) && old(allocated(n)) :: n.content == old(n.content)
    ensures Shows(t)
    decreases t
  {
    forall c | c in t.content ensures Shows(c) {
      StillShows(c);
    }
  }

  // What the three ways of changing a mapping do to its shape.

  function Without(t: Tree, idx: nat): Tree
    requires idx + 1 < |t.content|
  {
    Tree(t.at, t.content[..idx] + t.content[idx + 2..])
  }

  lemma WithoutKeeps(t: Tree, idx: nat)
    requires Apart(t) && idx + 1 < |t.content|
    ensures Apart(Without(t, idx)) && Footprint(Without(t, idx)) <= Footprint(t)
  {
    var t' := Without(t, idx);
    assert forall k | 0 <= k < |t'.content| :: t'.content[k] == t.content[if k < idx then k else k + 2];
  }

  lemma WithoutRefs(t: Tree, idx: nat)
    requires idx + 1 < |t.content|
    ensures Refs(Without(t, idx).content) == Refs(t.content)[..idx] + Refs(t.content)[idx + 2..]
    ensures forall c | c in Without(t, idx).content :: c in t.content
  {
  }

  lemma ReplaceKeeps(t: Tree, k: nat, r: Tree, extra: set<YamlNode>)
    requires Apart(t) && k < |t.content| && Apart(r)
    requires Footprint(r) <= Footprint(t.content[k]) + extra && extra !! Footprint(t)
    ensures var t' := Tree(t.at, t.content[k := r]); Apart(t') && Footprint(t') <= Footprint(t) + extra
  {
    var t' := Tree(t.at, t.content[k := r]);
    ChildNodes(t, k);
    assert t.content[k] in t.content;
    forall j | 0 <= j < |t.content| ensures Footprint(t.content[j]) <= Footprint(t) && t.content[j] in t.content {
      ChildNodes(t, j);
    }
    forall i, j | 0 <= i < j < |t'.content| ensures Footprint(t'.content[i]) !! Footprint(t'.content[j]) {
      assert Footprint(t.content[i]) !! Footprint(t.content[j]);
    }
  }

  lemma AppendKeeps(t: Tree, key: Tree, val: Tree)
    requires Apart(t) && Apart(key) && Apart(val)
    requires Footprint(key) !! Footprint(t) && Footprint(val) !! Footprint(t) && Footprint(key) !! Footprint(val)
    ensures var t' := Tree(t.at, t.content + [key, val]);
            Apart(t') && Footprint(t') <= Footprint(t) + Footprint(key) + Footprint(val)
  {
    var mid := Tree(t.at, t.content + [key]);
    AppendOne(t, key);
    AppendOne(mid, val);
    assert mid.content + [val] == t.content + [key, val];
  }

  lemma AppendOne(t: Tree, c: Tree)
    requires Apart(t) && Apart(c) && Footprint(c) !! Footprint(t)
    ensures var t' := Tree(t.at, t.content + [c]); Apart(t') && Footprint(t') <= Footprint(t) + Footprint(c)
  {
    var t' := Tree(t.at, t.content + [c]);
    forall j | 0 <= j < |t.content| ensures Footprint(t.content[j]) <= Footprint(t) && t.content[j] in t.content {
      ChildNodes(t, j);
    }
    assert forall d | d in t'.content :: d in t.content || d == c;
  }

  /** The one kind of write: a node gets the content of the shape t. */
  method SetContent(base: YamlNode, content: seq<YamlNode>, ghost t: Tree)
    requires base == t.at && content == Refs(t.content)
    requires Apart(t) && forall c | c in t.content :: Shows(c)
    modifies base`content
    ensures Shows(t)
  {
    base.content := content;
    forall c | c in t.content ensures Shows(c) {
      StillShows(c);
    }
  }

  /** The entries of the patch from i on still stand as they were, apart from
      what has been merged so far. */
  ghost predicate Ahead(cur: Tree, tp: Tree, i: nat) {
    && tp.at !in Footprint(cur)
    && forall k | i <= k < |tp.content| :: Footprint(cur) !! Footprint(tp.content[k])
  }

  lemma AheadOfNext(cur: Tree, next: Tree, tp: Tree, i: nat)
    requires Apart(tp) && Ahead(cur, tp, i) && i + 1 < |tp.content|
    requires Footprint(next) <= Footprint(cur) + Footprint(tp.content[i]) + Footprint(tp.content[i + 1])
    ensures Ahead(next, tp, i + 2)
  {
    assert tp.content[i] in tp.content && tp.content[i + 1] in tp.content;
    forall k | i + 2 <= k < |tp.content| ensures Footprint(next) !! Footprint(tp.content[k]) {
      assert Footprint(tp.content[i]) !! Footprint(tp.content[k]);
      assert Footprint(tp.content[i + 1]) !! Footprint(tp.content[k]);
    }
  }

  /** The value of an existing key, merged or replaced. */
  method MergeValue(base: YamlNode, k: nat, patchVal: YamlNode, ghost cur: Tree, ghost tv: Tree)
    requires base == cur.at && patchVal == tv.at && k < |cur.content|
    requires Shows(cur) && Apart(cur) && Shows(tv) && Apart(tv) && Footprint(cur) !! Footprint(tv)
    modifies Footprint(cur) + Footprint(tv)
    ensures var t' := Tree(cur.at, cur.content[k := Merge(cur.content[k], tv)]);
            Shows(t') && Apart(t') && Footprint(t') <= Footprint(cur) + Footprint(tv)
    decreases Footprint(tv), 4
  {
    ghost var tc := cur.content[k];
    ghost var tr := Merge(tc, tv);
    ChildNodes(cur, k);
    assert tc in cur.content;
    var r := MergeNodes(base.content[k], patchVal, Some(tc), Some(tv));
    ReplaceKeeps(cur, k, tr, Footprint(tv));
    forall j | 0 <= j < |cur.content| && j != k ensures Shows(cur.content[j]) {
      Siblings(cur, k, j);
      StillShows(cur.content[j]);
    }
    SetChild(base, k, r, cur, tr);
  }

  method SetChild(base: YamlNode, k: nat, r: YamlNode, ghost cur: Tree, ghost tr: Tree)
    requires base == cur.at && k < |cur.content| && base.content == Refs(cur.content) && r == tr.at && Shows(tr)
    requires forall j | 0 <= j < |cur.content| && j != k :: Shows(cur.content[j])
    requires Apart(Tree(cur.at, cur.content[k := tr]))
    modifies base`content
    ensures Shows(Tree(cur.at, cur.content[k := tr]))
  {
    ghost var next := Tree(cur.at, cur.content[k := tr]);
    forall c | c in next.content ensures Shows(c) {
      var j :| 0 <= j < |next.content| && next.content[j] == c;
      assert c == if j == k then tr else cur.content[j];
    }
    SetContent(base, base.content[k := r], next);
  }

  method DeleteEntry(base: YamlNode, idx: nat, ghost cur: Tree)
    requires base == cur.at && Shows(cur) && Apart(cur) && idx + 1 < |cur.content|
    modifies base`content
    ensures Shows(Without(cur, idx)) && Apart(Without(cur, idx))
  {
    WithoutKeeps(cur, idx);
    WithoutRefs(cur, idx);
    SetContent(base, base.content[..idx] + base.content[idx + 2..], Without(cur, idx));
  }

  method AppendEntry(base: YamlNode, key: YamlNode, val: YamlNode, ghost cur: Tree, ghost tk: Tree, ghost tv: Tree)
    requires base == cur.at && key == tk.at && val == tv.at
    requires Shows(cur) && Shows(tk) && Shows(tv)
    requires Apart(Tree(cur.at, cur.content + [tk, tv]))
    modifies base`content
    ensures Shows(Tree(cur.at, cur.content + [tk, tv]))
  {
    ghost var next := Tree(cur.at, cur.content + [tk, tv]);
    assert forall c | c in next.content :: c in cur.content || c == tk || c == tv;
    SetContent(base, base.content + [key, val], next);
  }

  /** One pass through the loop body. */
  method MergeOne(base: YamlNode, patchKey: YamlNode, patchVal: YamlNode, ghost cur: Tree, ghost tk: Tree,
                  ghost tv: Tree)
    requires base == cur.at && patchKey == tk.at && patchVal == tv.at
    requires Shows(cur) && Shows(tk) && Shows(tv) && Apart(cur) && Apart(tk) && Apart(tv)
    requires Footprint(tk) !! Footprint(cur) && Footprint(tv) !! Footprint(cur) && Footprint(tk) !! Footprint(tv)
    modifies Footprint(cur) + Footprint(tv)
    ensures var next := MergeEntry(cur, tk, tv);
            Shows(next) && Apart(next) && Footprint(next) <= Footprint(cur) + Footprint(tk) + Footprint(tv)
    decreases Footprint(tv), 6
  {
    var idx := FindMappingKey(base, patchKey.value, cur);
    StillShows(cur);
    StillShows(tk);
    StillShows(tv);
    MergeAt(base, idx, patchKey, patchVal, cur, tk, tv);
  }

  /** What the four ways on from the key search make of a mapping. */
  lemma EntryShape(cur: Tree, tk: Tree, tv: Tree, idx: int)
    requires idx == FindKey(cur.content, tk.at.value, 0)
    ensures MergeEntry(cur, tk, tv)
         == if IsNull(tv.at) then (if idx >= 0 then Without(cur, idx) else cur)
            else if idx >= 0 then Tree(cur.at, cur.content[idx + 1 := Merge(cur.content[idx + 1], tv)])
            else Tree(cur.at, cur.content + [tk, tv])
  {
  }

  /** The ways on from the key search. */
  method MergeAt(base: YamlNode, idx: int, patchKey: YamlNode, patchVal: YamlNode,
                 ghost cur: Tree, ghost tk: Tree, ghost tv: Tree)
    requires base == cur.at && patchKey == tk.at && patchVal == tv.at && idx == FindKey(cur.content, tk.at.value, 0)
    requires Shows(cur) && Shows(tk) && Shows(tv) && Apart(cur) && Apart(tk) && Apart(tv)
    requires Footprint(tk) !! Footprint(cur) && Footprint(tv) !! Footprint(cur) && Footprint(tk) !! Footprint(tv)
    modifies Footprint(cur) + Footprint(tv)
    ensures var next := MergeEntry(cur, tk, tv);
            Shows(next) && Apart(next) && Footprint(next) <= Footprint(cur) + Footprint(tk) + Footprint(tv)
    decreases Footprint(tv), 5
  {
    EntryShape(cur, tk, tv, idx);
    if IsNull(patchVal) {
      if idx >= 0 {
        WithoutKeeps(cur, idx);
        DeleteEntry(base, idx, cur);
      }
    } else if idx >= 0 {
      MergeValue(base, idx + 1, patchVal, cur, tv);
    } else {
      AppendKeeps(cur, tk, tv);
      AppendEntry(base, patchKey, patchVal, cur, tk, tv);
    }
  }

  /** The loop body: the pair at i merged into what there is so far. */
  method MergeNext(base: YamlNode, patch: YamlNode, i: nat, ghost cur: Tree, ghost tp: Tree)
    requires base == cur.at && patch.content == Refs(tp.content) && i + 1 < |tp.content|
    requires Shows(cur) && Apart(cur) && Apart(tp) && Ahead(cur, tp, i)
    requires forall k | i <= k < |tp.content| :: Shows(tp.content[k])
    modifies Footprint(cur) + Footprint(tp.content[i + 1])
    ensures var next := MergeEntry(cur, tp.content[i], tp.content[i + 1]);
      && Shows(next) && Apart(next) && Ahead(next, tp, i + 2)
      && Footprint(next) <= Footprint(cur) + Footprint(tp.content[i]) + Footprint(tp.content[i + 1])
    ensures forall k | i + 2 <= k < |tp.content| :: Shows(tp.content[k])
    decreases Footprint(tp.content[i + 1]), 7
  {
    ghost var tk, tv := tp.content[i], tp.content[i + 1];
    assert tk in tp.content && tv in tp.content;
    MergeOne(base, patch.content[i], patch.content[i + 1], cur, tk, tv);
    forall k | i + 2 <= k < |tp.content| ensures Shows(tp.content[k]) {
      assert Footprint(tv) !! Footprint(tp.content[k]);
      StillShows(tp.content[k]);
    }
    AheadOfNext(cur, MergeEntry(cur, tk, tv), tp, i);
  }

  method MergeMappings(base: YamlNode, patch: YamlNode, ghost tb: Tree, ghost tp: Tree)
    requires base == tb.at && patch == tp.at
    requires Shows(tb) && Apart(tb) && Shows(tp) && Apart(tp) && Footprint(tb) !! Footprint(tp)
    modifies Footprint(tb) + Footprint(tp)
    ensures Shows(MergeFrom(tb, tp, 0)) && Apart(MergeFrom(tb, tp, 0))
    ensures Footprint(MergeFrom(tb, tp, 0)) <= Footprint(tb) + Footprint(tp)
    ensures patch.content == old(patch.content)
    decreases Footprint(tp), 2
  {
    ghost var cur := tb;
    var i := 0;
    forall k | 0 <= k < |tp.content| ensures Footprint(tp.content[k]) <= Footprint(tp) {
      ChildNodes(tp, k);
    }
    while i < |patch.content| - 1
      invariant patch.content == Refs(tp.content)
      invariant cur.at == base && MergeFrom(cur, tp, i) == MergeFrom(tb, tp, 0)
      invariant Shows(cur) && Apart(cur) && Footprint(cur) <= Footprint(tb) + Footprint(tp)
      invariant Ahead(cur, tp, i)
      invariant forall k | i <= k < |tp.content| :: Shows(tp.content[k])
    {
      assert tp.content[i + 1] in tp.content;
      MergeNext(base, patch, i, cur, tp);
      cur := MergeEntry(cur, tp.content[i], tp.content[i + 1]);
      i := i + 2;
    }
  }
}
