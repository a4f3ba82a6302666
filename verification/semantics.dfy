/** The accessibility accessors of the callback core. Each first asks the
    window to bring its semantic tree up to date, then answers from it. */
module Semantics {
  import opened Mado
  import Window
  import opened Dispatch

  /** The dispatcher after the window refreshed its semantic tree. */
  function Refreshed(ops: Window.Ops, c: Callbacks): Callbacks
  {
    c.(w := ops.updateSemantics(c.w))
  }

  /** The identifier of the root of the refreshed tree. */
  function SemanticRoot(ops: Window.Ops, c: Callbacks): (r: (Callbacks, SemanticID))
    ensures r.0 == Refreshed(ops, c)
    ensures r.1 == r.0.w.semantic.root
    ensures r.0.d == c.d && r.0.busy == c.busy && r.0.waitEvents == c.waitEvents && r.0.trace == c.trace
  {
    var next := Refreshed(ops, c);
    (next, next.w.semantic.root)
  }

  /** The answer to a node lookup: the node (the zero node when absent) and
      whether it was found. */
  datatype Lookup = Lookup(next: Callbacks, node: SemanticNode, found: bool)

  /** Looks `id` up in the refreshed tree. An unknown identifier is not an
      error: it answers not found with the zero node. */
  function LookupSemantic(ops: Window.Ops, c: Callbacks, id: SemanticID): (r: Lookup)
    ensures r.next == Refreshed(ops, c)
    ensures r.found <==> id in r.next.w.semantic.ids
    ensures r.found ==> r.node == r.next.w.semantic.ids[id]
    ensures !r.found ==> r.node == ZeroNode
  {
    var next := Refreshed(ops, c);
    var ids := next.w.semantic.ids;
    if id in ids then Lookup(next, ids[id], true) else Lookup(next, ZeroNode, false)
  }

  /** Appends to `diffs` the identifiers whose subtrees changed since the
      previous frame. Without a previous tree (the first frame) the
      accumulator comes back unchanged. */
  function AppendSemanticDiffs(ops: Window.Ops, c: Callbacks, diffs: seq<SemanticID>): (r: (Callbacks, seq<SemanticID>))
    ensures r.0 == Refreshed(ops, c)
    ensures |r.1| >= |diffs| && r.1[..|diffs|] == diffs
    ensures r.0.w.semantic.prevTree == [] ==> r.1 == diffs
    ensures r.0.w.semantic.prevTree != [] ==>
      r.1[|diffs|..] == ops.collectDiffs(r.0.w, r.0.w.semantic.prevTree[0])
  {
    var next := Refreshed(ops, c);
    var tree := next.w.semantic.prevTree;
    if |tree| > 0 then
      var out := diffs + ops.collectDiffs(next.w, tree[0]);
      assert out[..|diffs|] == diffs;
      (next, out)
    else
      (next, diffs)
  }

  /** The accumulator is passed through untouched: appending to `diffs` gives
      `diffs` followed by what appending to an empty accumulator gives. */
  lemma AppendSemanticDiffsKeepsAccumulator(ops: Window.Ops, c: Callbacks, diffs: seq<SemanticID>)
    ensures AppendSemanticDiffs(ops, c, diffs).1 == diffs + AppendSemanticDiffs(ops, c, []).1
  {
  }
}
