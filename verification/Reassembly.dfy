/** Reassembly of streamed tool calls and the chunk loop around it
  (modules/provider/openai_compatible/stream.go). */
module Reassembly {
  import opened Options
  import opened Messages

  /** A streaming tool-call delta; empty strings are absent fields. */
  datatype Delta = Delta(index: int, id: string, name: string, args: string)

  type Calls = map<int, ToolCall>

  const NEW_CALL := ToolCall("", "", "")

  function CallAt(m: Calls, i: int): ToolCall { if i in m then m[i] else NEW_CALL }

  function Extend(tc: ToolCall, d: Delta): ToolCall {
    ToolCall(if d.id != "" then d.id else tc.id, if d.name != "" then d.name else tc.name, tc.args + d.args)
  }

  function Add(m: Calls, d: Delta): Calls { m[d.index := Extend(CallAt(m, d.index), d)] }

  function AddAll(m: Calls, ds: seq<Delta>): Calls {
    if ds == [] then m else Add(AddAll(m, ds[..|ds| - 1]), ds[|ds| - 1])
  }

  /** The calls with indexes from 0 to below n, in index order. */
  function InOrder(m: Calls, n: nat): seq<ToolCall> {
    if n == 0 then [] else InOrder(m, n - 1) + if n - 1 in m then [m[n - 1]] else []
  }

  /** n is beyond every index. */
  ghost predicate Beyond(m: Calls, n: nat) { forall i | i in m :: i < n }

  lemma {:induction false} BoundDoesNotMatter(m: Calls, n: nat, n': nat)
    requires Beyond(m, n) && n <= n'
    ensures InOrder(m, n') == InOrder(m, n)
    decreases n'
  {
    if n < n' {
      BoundDoesNotMatter(m, n, n' - 1);
    }
  }

  lemma EmptyOrNot(s: set<int>)
    ensures s == {} || exists i: int :: i in s
  {
    if forall i: int :: i !in s {
      assert s == {};
    }
  }

  class ToolAccumulator {
    var calls: Calls

    constructor ()
      ensures calls == map[]
    {
      calls := map[];
    }

    method AddDelta(st: Delta)
      modifies this
      ensures calls == Add(old(calls), st)
    {
      var tc := if st.index in calls then calls[st.index] else NEW_CALL;
      if st.id != "" {
        tc := tc.(id := st.id);
      }
      if st.name != "" {
        tc := tc.(name := st.name);
      }
      if st.args != "" {
        tc := tc.(args := tc.args + st.args);
      }
      assert CallAt(calls, st.index).args + "" == CallAt(calls, st.index).args;
      calls := calls[st.index := tc];
    }

    method AddEach(ds: seq<Delta>)
      modifies this
      ensures calls == AddAll(old(calls), ds)
    {
      for k := 0 to |ds|
        invariant calls == AddAll(old(calls), ds[..k])
      {
        AddDelta(ds[k]);
        assert ds[..k + 1][..k] == ds[..k];
      }
      assert ds[..|ds|] == ds;
    }

    /** The calls in index order, whatever bound beyond the indexes one takes;
        calls under negative indexes do not appear. */
    method Result() returns (result: seq<ToolCall>)
      ensures forall n: nat | Beyond(calls, n) :: result == InOrder(calls, n)
    {
      if |calls| == 0 {
        Nothing(calls);
        return [];
      }
      var maxIdx: int := 0;
      var todo := calls.Keys;
      while todo != {}
        invariant 0 <= maxIdx && (maxIdx == 0 || maxIdx in calls)
        invariant forall i | i in calls && i !in todo :: i <= maxIdx
        decreases todo
      {
        EmptyOrNot(todo);
        var idx: int :| idx in todo;
        if idx > maxIdx {
          maxIdx := idx;
        }
        todo := todo - {idx};
      }
      result := [];
      for i := 0 to maxIdx + 1
        invariant result == InOrder(calls, i)
      {
        if i in calls {
          result := result + [calls[i]];
        }
      }
      forall n: nat | Beyond(calls, n) ensures result == InOrder(calls, n) {
        if n <= maxIdx {
          BoundDoesNotMatter(calls, n, maxIdx + 1);
        } else {
          BoundDoesNotMatter(calls, maxIdx + 1, n);
        }
      }
    }

    lemma Nothing(m: Calls)
      requires |m| == 0
      ensures forall n: nat :: InOrder(m, n) == []
    {
      forall n: nat ensures InOrder(m, n) == [] {
        BoundDoesNotMatter(m, 0, n);
      }
    }
  }

  // ---------------------------------------------------------------------
  // Interleavings
  // ---------------------------------------------------------------------

  /** The deltas of one index, in their order. */
  function Of(ds: seq<Delta>, i: int): seq<Delta> {
    if ds == [] then []
    else Of(ds[..|ds| - 1], i) + if ds[|ds| - 1].index == i then [ds[|ds| - 1]] else []
  }

  /** One call from its own deltas alone. */
  function Assemble(ds: seq<Delta>): ToolCall {
    if ds == [] then NEW_CALL else Extend(Assemble(ds[..|ds| - 1]), ds[|ds| - 1])
  }

  /** Each index sees only its own deltas. */
  lemma {:induction false} IndexesAreIndependent(ds: seq<Delta>, i: int)
    ensures var m := AddAll(map[], ds);
            (i in m <==> Of(ds, i) != []) && (i in m ==> m[i] == Assemble(Of(ds, i)))
    decreases |ds|
  {
    if ds != [] {
      var init, d := ds[..|ds| - 1], ds[|ds| - 1];
      IndexesAreIndependent(init, i);
      if d.index != i {
        assert Of(init, i) + [] == Of(init, i);
      }
    }
  }

  /** The same deltas of each index in the same order: one is an interleaving of
      the other. */
  ghost predicate SameOrders(ds: seq<Delta>, ds': seq<Delta>) { forall i :: Of(ds, i) == Of(ds', i) }

  /** Two streams that agree index by index accumulate the same calls, however
      their deltas are interleaved. */
  lemma InterleavingDoesNotMatter(ds: seq<Delta>, ds': seq<Delta>)
    requires SameOrders(ds, ds')
    ensures AddAll(map[], ds) == AddAll(map[], ds')
  {
    var m, m' := AddAll(map[], ds), AddAll(map[], ds');
    forall i ensures (i in m <==> i in m') && (i in m ==> m[i] == m'[i]) {
      IndexesAreIndependent(ds, i);
      IndexesAreIndependent(ds', i);
    }
  }

  // Cutting a call into fragments.

  function ArgsOf(ds: seq<Delta>): string {
    if ds == [] then "" else ArgsOf(ds[..|ds| - 1]) + ds[|ds| - 1].args
  }

  /** No fragment carries another value than v, and some fragment carries v unless
      it is absent. */
  ghost predicate Carries(values: seq<string>, v: string) {
    && (forall k | 0 <= k < |values| :: values[k] == "" || values[k] == v)
    && (v == "" || v in values)
  }

  function Ids(ds: seq<Delta>): seq<string> { seq(|ds|, k requires 0 <= k < |ds| => ds[k].id) }

  function Names(ds: seq<Delta>): seq<string> { seq(|ds|, k requires 0 <= k < |ds| => ds[k].name) }

  /** The deltas are a cut of this call: arguments in fragments, ID and name on any
      of them. */
  ghost predicate Cuts(ds: seq<Delta>, tc: ToolCall) {
    ds != [] && ArgsOf(ds) == tc.args && Carries(Ids(ds), tc.id) && Carries(Names(ds), tc.name)
  }

  lemma {:induction false} AssembleArgs(ds: seq<Delta>)
    ensures Assemble(ds).args == ArgsOf(ds)
    decreases |ds|
  {
    if ds != [] {
      AssembleArgs(ds[..|ds| - 1]);
    }
  }

  lemma {:induction false} AssembleField(ds: seq<Delta>, id: string, name: string)
    requires forall k | 0 <= k < |ds| :: ds[k].id == "" || ds[k].id == id
    requires forall k | 0 <= k < |ds| :: ds[k].name == "" || ds[k].name == name
    ensures Assemble(ds).id == (if id in Ids(ds) then id else "")
    ensures Assemble(ds).name == (if name in Names(ds) then name else "")
    decreases |ds|
  {
    if ds != [] {
      var init, d := ds[..|ds| - 1], ds[|ds| - 1];
      AssembleField(init, id, name);
      assert Ids(ds) == Ids(init) + [d.id];
      assert Names(ds) == Names(init) + [d.name];
    }
  }

  lemma CutAssembles(ds: seq<Delta>, tc: ToolCall)
    requires Cuts(ds, tc)
    ensures Assemble(ds) == tc
  {
    AssembleArgs(ds);
    forall k | 0 <= k < |ds|
      ensures (ds[k].id == "" || ds[k].id == tc.id) && (ds[k].name == "" || ds[k].name == tc.name)
    {
      assert Ids(ds)[k] == ds[k].id && Names(ds)[k] == ds[k].name;
    }
    AssembleField(ds, tc.id, tc.name);
  }

  /** Cut any calls into fragments and interleave them in any way that keeps each
      index's own order: accumulating gives the original calls back. */
  lemma FragmentsReassemble(original: Calls, ds: seq<Delta>)
    requires forall i | i in original :: Cuts(Of(ds, i), original[i])
    requires forall i | i !in original :: Of(ds, i) == []
    ensures AddAll(map[], ds) == original
  {
    var m := AddAll(map[], ds);
    forall i ensures (i in m <==> i in original) && (i in m ==> m[i] == original[i]) {
      IndexesAreIndependent(ds, i);
      if i in original {
        CutAssembles(Of(ds, i), original[i]);
      }
    }
  }

  /** The calls numbered from 0 on, as a stream numbers them. */
  function Numbered(calls: seq<ToolCall>): Calls { map i | 0 <= i < |calls| :: calls[i] }

  lemma {:induction false} NumberedInOrder(calls: seq<ToolCall>, n: nat)
    requires n <= |calls|
    ensures InOrder(Numbered(calls), n) == calls[..n]
  {
    if n > 0 {
      NumberedInOrder(calls, n - 1);
    }
  }

  /** The deltas are these calls, numbered from 0 on, cut and interleaved. */
  ghost predicate CutInto(calls: seq<ToolCall>, ds: seq<Delta>) {
    && (forall i | 0 <= i < |calls| :: Cuts(Of(ds, i), calls[i]))
    && (forall i: int | i < 0 || i >= |calls| :: Of(ds, i) == [])
  }

  /** For calls numbered from 0 on the result is the list of calls itself. */
  lemma CallsReassemble(calls: seq<ToolCall>, ds: seq<Delta>)
    requires CutInto(calls, ds)
    ensures AddAll(map[], ds) == Numbered(calls)
    ensures Beyond(AddAll(map[], ds), |calls|) && InOrder(AddAll(map[], ds), |calls|) == calls
  {
    FragmentsReassemble(Numbered(calls), ds);
    NumberedInOrder(calls, |calls|);
    assert calls[..|calls|] == calls;
  }
}
