/** Assembly of streamed tool calls: fragments are gathered by index and listed
    in index order, for both streaming formats. */
module ToolAssembly {
  import opened Text
  import opened Chat

  // ---- sorted indices -------------------------------------------------

  lemma HasElement(s: set<int>)
    ensures s == {} || exists x: int :: x in s
  {
    if forall x: int :: x !in s {
      assert s == {};
    }
  }

  ghost function Least(s: set<int>): (m: int)
    requires s != {}
    ensures m in s && forall x :: x in s ==> m <= x
  {
    HasElement(s);
    var x: int :| x in s;
    if s == {x} then x
    else
      assert s == {x} + (s - {x});
      var y := Least(s - {x});
      if x < y then x else y
  }

  /** The elements of a set in ascending order. */
  ghost function Ascending(s: set<int>): (r: seq<int>)
    ensures forall x :: x in r <==> x in s
    ensures forall i, j :: 0 <= i < j < |r| ==> r[i] < r[j]
  {
    if s == {} then [] else [Least(s)] + Ascending(s - {Least(s)})
  }

  predicate Sorted(r: seq<int>) {
    forall i, j :: 0 <= i < j < |r| ==> r[i] <= r[j]
  }

  lemma SameElements(r: seq<int>, s: set<int>)
    requires multiset(r) == multiset(s)
    ensures forall x :: x in r <==> x in s
  {
    forall x
      ensures x in r <==> x in s
    {
      assert x in r <==> x in multiset(r);
      assert x in s <==> x in multiset(s);
    }
  }

  lemma FirstIsLeast(r: seq<int>, s: set<int>)
    requires Sorted(r) && r != [] && multiset(r) == multiset(s)
    ensures s != {} && Least(s) == r[0]
  {
    SameElements(r, s);
    assert r[0] in r && r[0] in s;
    assert Least(s) in r;
  }

  lemma WithoutOne(s: set<int>, x: int)
    requires x in s
    ensures multiset(s) == multiset(s - {x}) + multiset{x}
    ensures multiset(s - {x}) == multiset(s) - multiset{x}
  {
    assert forall y :: y in s <==> y in s - {x} || y == x;
    assert multiset(s) == multiset(s - {x}) + multiset{x};
  }

  lemma RestSame(r: seq<int>, s: set<int>)
    requires r != [] && multiset(r) == multiset(s)
    ensures multiset(r[1..]) == multiset(s - {r[0]})
  {
    assert r == [r[0]] + r[1..];
    assert r[0] in multiset(r);
    assert r[0] in s;
    WithoutOne(s, r[0]);
    assert multiset(r[1..]) == multiset(r) - multiset{r[0]};
  }

  lemma NothingSorted(s: set<int>)
    requires multiset([]) == multiset(s)
    ensures Ascending(s) == []
  {
    assert |multiset(s)| == |s|;
  }

  lemma AscendingUnfold(s: set<int>)
    requires s != {}
    ensures Ascending(s) == [Least(s)] + Ascending(s - {Least(s)})
  {
  }

  lemma SortedRest(r: seq<int>)
    requires Sorted(r) && r != []
    ensures Sorted(r[1..])
  {
  }

  lemma {:induction false} SortedIsAscending(r: seq<int>, s: set<int>)
    requires Sorted(r) && multiset(r) == multiset(s)
    ensures r == Ascending(s)
    decreases |r|
  {
    hide Sorted, Ascending, Least;
    if r == [] {
      NothingSorted(s);
    } else {
      FirstIsLeast(r, s);
      RestSame(r, s);
      SortedRest(r);
      SortedIsAscending(r[1..], s - {r[0]});
      AscendingUnfold(s);
      assert r == [r[0]] + r[1..];
    }
  }

  // The part before i is final: in order and below everything after it.
  ghost predicate Placed(r: seq<int>, i: int) {
    forall p, q :: 0 <= p < i && p < q < |r| ==> r[p] <= r[q]
  }

  // Puts the least of the indices from i on at place i.
  method PlaceLeast(a: array<int>, i: int)
    requires 0 <= i < a.Length && Placed(a[..], i)
    modifies a
    ensures Placed(a[..], i + 1) && multiset(a[..]) == multiset(old(a[..]))
  {
    hide Placed;
    var j := i + 1;
    while j < a.Length
      invariant i < j <= a.Length
      invariant Placed(a[..], i) && multiset(a[..]) == multiset(old(a[..]))
      invariant forall q :: i <= q < j ==> a[i] <= a[q]
    {
      if a[j] < a[i] {
        ghost var before := a[..];
        a[i], a[j] := a[j], a[i];
        SwapKeepsPlaced(before, a[..], i, j);
      }
      j := j + 1;
    }
    LeastPlaced(a[..], i);
  }

  lemma LeastPlaced(r: seq<int>, i: int)
    requires 0 <= i < |r| && Placed(r, i) && forall q :: i <= q < |r| ==> r[i] <= r[q]
    ensures Placed(r, i + 1)
  {
  }

  lemma AllPlaced(r: seq<int>)
    ensures Placed(r, 0) && (Placed(r, |r|) ==> Sorted(r))
  {
  }

  /** The exchange sort used on the indices. */
  method SortIndices(a: array<int>)
    modifies a
    ensures Sorted(a[..]) && multiset(a[..]) == multiset(old(a[..]))
  {
    hide Placed, Sorted;
    var i := 0;
    AllPlaced(a[..]);
    while i < a.Length
      invariant 0 <= i <= a.Length
      invariant Placed(a[..], i) && multiset(a[..]) == multiset(old(a[..]))
    {
      PlaceLeast(a, i);
      i := i + 1;
    }
    AllPlaced(a[..]);
  }

  lemma SwapKeepsPlaced(r: seq<int>, r': seq<int>, i: int, j: int)
    requires 0 <= i < j < |r| && Placed(r, i) && r' == r[i := r[j]][j := r[i]]
    ensures Placed(r', i) && multiset(r') == multiset(r)
  {
  }

  // The map's keys, in whatever order the map yields them.
  method KeysInAnyOrder(m: map<int, ToolCall>) returns (indices: array<int>)
    ensures fresh(indices) && multiset(indices[..]) == multiset(m.Keys)
  {
    indices := new int[|m.Keys|];
    var left, n := m.Keys, 0;
    while left != {}
      invariant left <= m.Keys && n + |left| == indices.Length
      invariant multiset(indices[..n]) + multiset(left) == multiset(m.Keys)
      decreases left
    {
      HasElement(left);
      var k: int :| k in left;
      indices[n] := k;
      assert indices[..n + 1] == indices[..n] + [k];
      WithoutOne(left, k);
      left, n := left - {k}, n + 1;
    }
    assert indices[..n] == indices[..];
  }

  method SortedKeys(m: map<int, ToolCall>) returns (indices: array<int>)
    ensures fresh(indices) && indices[..] == Ascending(m.Keys)
  {
    hide Sorted, Ascending;
    indices := KeysInAnyOrder(m);
    SortIndices(indices);
    SortedIsAscending(indices[..], m.Keys);
  }

  // ---- listing --------------------------------------------------------

  /** The calls at these indices, those without an id left out. */
  function Listed(indices: seq<int>, m: map<int, ToolCall>): seq<ToolCall>
    requires forall i :: 0 <= i < |indices| ==> indices[i] in m
  {
    if indices == [] then []
    else
      var tc := m[indices[|indices| - 1]];
      Listed(indices[..|indices| - 1], m) + (if tc.id != "" then [tc] else [])
  }

  method ListCalls(m: map<int, ToolCall>) returns (calls: seq<ToolCall>)
    ensures calls == Listed(Ascending(m.Keys), m)
  {
    hide Ascending;
    var indices := SortedKeys(m);
    ghost var all := indices[..];
    calls := [];
    var i := 0;
    while i < indices.Length
      invariant 0 <= i <= indices.Length && indices[..] == all == Ascending(m.Keys)
      invariant calls == Listed(all[..i], m)
    {
      assert all[..i + 1][..i] == all[..i];
      assert all[i] == indices[i];
      var tc := m[indices[i]];
      if tc.id != "" {
        calls := calls + [tc];
      }
      i := i + 1;
    }
    assert all[..i] == all;
  }

  // ---- fragments by index ---------------------------------------------

  datatype Fragment = Fragment(index: int, id: string, name: string, arguments: string)

  const NEW_CALL := ToolCall("", "function", "", "")

  function Merge(tc: ToolCall, f: Fragment): ToolCall {
    ToolCall(if f.id != "" then f.id else tc.id, tc.kind, if f.name != "" then f.name else tc.name, tc.arguments + f.arguments)
  }

  /** The fragments of one index, in order. */
  function Of(fs: seq<Fragment>, index: int): seq<Fragment> {
    if fs == [] then []
    else
      var last := fs[|fs| - 1];
      Of(fs[..|fs| - 1], index) + (if last.index == index then [last] else [])
  }

  /** The call a run of fragments of one index makes. */
  function Joined(fs: seq<Fragment>): ToolCall {
    if fs == [] then NEW_CALL else Merge(Joined(fs[..|fs| - 1]), fs[|fs| - 1])
  }

  function AllArguments(fs: seq<Fragment>): string {
    if fs == [] then "" else AllArguments(fs[..|fs| - 1]) + fs[|fs| - 1].arguments
  }

  function Gathered(fs: seq<Fragment>): map<int, ToolCall> {
    if fs == [] then map[]
    else
      var f, m := fs[|fs| - 1], Gathered(fs[..|fs| - 1]);
      m[f.index := Merge(if f.index in m then m[f.index] else NEW_CALL, f)]
  }

  method AssembleToolCalls(fs: seq<Fragment>) returns (calls: seq<ToolCall>)
    ensures calls == Listed(Ascending(Gathered(fs).Keys), Gathered(fs))
  {
    var m: map<int, ToolCall> := map[];
    var i := 0;
    while i < |fs|
      invariant 0 <= i <= |fs| && m == Gathered(fs[..i])
    {
      assert fs[..i + 1][..i] == fs[..i];
      var f := fs[i];
      var tc := if f.index in m then m[f.index] else NEW_CALL;
      if f.id != "" {
        tc := tc.(id := f.id);
      }
      if f.name != "" {
        tc := tc.(name := f.name);
      }
      tc := tc.(arguments := tc.arguments + f.arguments);
      m := m[f.index := tc];
      i := i + 1;
    }
    assert fs[..i] == fs;
    calls := ListCalls(m);
  }

  lemma JoinedExtend(fs: seq<Fragment>, f: Fragment)
    ensures Joined(fs + [f]) == Merge(Joined(fs), f) && Joined([]) == NEW_CALL
  {
    assert (fs + [f])[..|fs|] == fs;
  }

  lemma {:induction false} GatheredByIndex(fs: seq<Fragment>, index: int)
    ensures index in Gathered(fs) <==> Of(fs, index) != []
    ensures index in Gathered(fs) ==> Gathered(fs)[index] == Joined(Of(fs, index))
  {
    hide Merge;
    if fs != [] {
      var n := |fs| - 1;
      GatheredByIndex(fs[..n], index);
      if fs[n].index == index {
        JoinedExtend(Of(fs[..n], index), fs[n]);
        assert Of(fs, index) == Of(fs[..n], index) + [fs[n]];
      } else {
        assert Of(fs, index) == Of(fs[..n], index);
      }
    }
  }

  /** The arguments of a call are the argument pieces of its index, in order. */
  lemma {:induction false} JoinedArguments(fs: seq<Fragment>)
    ensures Joined(fs).arguments == AllArguments(fs) && Joined(fs).kind == "function"
  {
    if fs != [] {
      JoinedArguments(fs[..|fs| - 1]);
    }
  }

  /** How fragments of different indices interleave does not matter. */
  lemma InterleavingIrrelevant(fs: seq<Fragment>, gs: seq<Fragment>)
    requires forall index :: Of(fs, index) == Of(gs, index)
    ensures Gathered(fs) == Gathered(gs)
    ensures Listed(Ascending(Gathered(fs).Keys), Gathered(fs)) == Listed(Ascending(Gathered(gs).Keys), Gathered(gs))
  {
    hide Of, Gathered, Joined;
    forall index
      ensures index in Gathered(fs) <==> index in Gathered(gs)
      ensures index in Gathered(fs) ==> Gathered(fs)[index] == Gathered(gs)[index]
    {
      GatheredByIndex(fs, index);
      GatheredByIndex(gs, index);
    }
    assert Gathered(fs) == Gathered(gs);
  }

  // ---- block events ---------------------------------------------------

  /** The block format announces a block first; a later announcement of the
      same index replaces it, and pieces of unannounced blocks are ignored. */
  datatype BlockEvent =
    | BlockStart(index: int, isTool: bool, id: string, name: string)
    | JsonDelta(index: int, partial: string)

  function ApplyEvent(tc: Option<ToolCall>, ev: BlockEvent): Option<ToolCall> {
    match ev
    case BlockStart(_, isTool, id, name) => if isTool then Some(ToolCall(id, "function", name, "")) else tc
    case JsonDelta(_, partial) => if tc.Some? then Some(tc.value.(arguments := tc.value.arguments + partial)) else None
  }

  function EventsOf(evs: seq<BlockEvent>, index: int): seq<BlockEvent> {
    if evs == [] then []
    else
      var last := evs[|evs| - 1];
      EventsOf(evs[..|evs| - 1], index) + (if last.index == index then [last] else [])
  }

  function BlockMade(evs: seq<BlockEvent>): Option<ToolCall> {
    if evs == [] then None else ApplyEvent(BlockMade(evs[..|evs| - 1]), evs[|evs| - 1])
  }

  function Lookup(m: map<int, ToolCall>, index: int): Option<ToolCall> {
    if index in m then Some(m[index]) else None
  }

  function Blocks(evs: seq<BlockEvent>): map<int, ToolCall> {
    if evs == [] then map[]
    else
      var ev, m := evs[|evs| - 1], Blocks(evs[..|evs| - 1]);
      var made := ApplyEvent(Lookup(m, ev.index), ev);
      if made.Some? then m[ev.index := made.value] else m
  }

  // Empty arguments become an empty JSON object.
  function Completed(m: map<int, ToolCall>): map<int, ToolCall> {
    map i | i in m :: if m[i].arguments == "" then m[i].(arguments := "{}") else m[i]
  }

  method AssembleToolBlocks(evs: seq<BlockEvent>) returns (calls: seq<ToolCall>)
    ensures calls == Listed(Ascending(Blocks(evs).Keys), Completed(Blocks(evs)))
  {
    var blocks: map<int, ToolCall> := map[];
    var i := 0;
    while i < |evs|
      invariant 0 <= i <= |evs| && blocks == Blocks(evs[..i])
    {
      assert evs[..i + 1][..i] == evs[..i];
      match evs[i] {
        case BlockStart(index, isTool, id, name) =>
          if isTool {
            blocks := blocks[index := ToolCall(id, "function", name, "")];
          }
        case JsonDelta(index, partial) =>
          if index in blocks {
            blocks := blocks[index := blocks[index].(arguments := blocks[index].arguments + partial)];
          }
      }
      i := i + 1;
    }
    assert evs[..i] == evs;
    assert Completed(blocks).Keys == blocks.Keys;
    calls := ListCalls(Completed(blocks));
  }

  lemma MadeExtend(evs: seq<BlockEvent>, ev: BlockEvent)
    ensures BlockMade(evs + [ev]) == ApplyEvent(BlockMade(evs), ev) && BlockMade([]) == None
  {
    assert (evs + [ev])[..|evs|] == evs;
  }

  lemma {:induction false} BlocksByIndex(evs: seq<BlockEvent>, index: int)
    ensures Lookup(Blocks(evs), index) == BlockMade(EventsOf(evs, index))
  {
    hide ApplyEvent;
    if evs != [] {
      var n := |evs| - 1;
      BlocksByIndex(evs[..n], index);
      if evs[n].index == index {
        MadeExtend(EventsOf(evs[..n], index), evs[n]);
        OnlyStartsMake(evs[..n], evs[n]);
        assert EventsOf(evs, index) == EventsOf(evs[..n], index) + [evs[n]];
      } else {
        assert EventsOf(evs, index) == EventsOf(evs[..n], index);
      }
    }
  }

  // An event never removes a block.
  lemma OnlyStartsMake(evs: seq<BlockEvent>, ev: BlockEvent)
    ensures Lookup(Blocks(evs), ev.index).Some? ==> ApplyEvent(Lookup(Blocks(evs), ev.index), ev).Some?
  {
  }

  /** The block format does not depend on the interleaving either. */
  lemma BlockInterleavingIrrelevant(evs: seq<BlockEvent>, others: seq<BlockEvent>)
    requires forall index :: EventsOf(evs, index) == EventsOf(others, index)
    ensures Blocks(evs) == Blocks(others)
  {
    hide EventsOf, Blocks, BlockMade;
    var a, b := Blocks(evs), Blocks(others);
    forall index
      ensures index in a <==> index in b
      ensures index in a ==> a[index] == b[index]
    {
      BlocksByIndex(evs, index);
      BlocksByIndex(others, index);
      assert Lookup(a, index) == Lookup(b, index);
    }
    assert a == b;
  }
}
