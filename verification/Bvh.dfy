/** Chunks, the array-encoded bounding volume hierarchy over them, its builder and its query. */
module Bvh {
  import opened Results
  import opened Sequences
  import opened Geometry
  import opened Sorting
  import opened Words

  const DEFAULT_MAX_LEAF_CHUNKS: nat := 4

  datatype CollisionChunk = CollisionChunk(
    chunkId: string,
    aabbMin: Vec3,
    aabbMax: Vec3,
    payloadRef: string,
    triangleCount: nat,
    partitionHint: Option<string>
  ) {
    function Bounds(): Aabb { Aabb(aabbMin, aabbMax) }
  }

  datatype LeafRange = LeafRange(first: nat, count: nat)

  datatype BvhNode = BvhNode(bounds: Aabb, left: Option<nat>, right: Option<nat>, leaf: Option<LeafRange>)

  datatype ChunkBoundsBvh = ChunkBoundsBvh(root: nat, nodes: seq<BvhNode>, leafIndices: seq<nat>)

  // ---------- Lists of chunk indices ----------

  ghost predicate InRange(chunks: seq<CollisionChunk>, ids: seq<nat>) {
    forall i :: 0 <= i < |ids| ==> ids[i] < |chunks|
  }

  function Boxes(chunks: seq<CollisionChunk>, ids: seq<nat>): (boxes: seq<Aabb>)
    requires InRange(chunks, ids)
    ensures |boxes| == |ids|
  {
    seq(|ids|, i requires 0 <= i < |ids| => chunks[ids[i]].Bounds())
  }

  /** 0, 1, ..., n - 1 */
  function Indices(n: nat): (ids: seq<nat>)
    ensures |ids| == n && forall i :: 0 <= i < n ==> ids[i] == i
  {
    seq(n, i => i)
  }

  function UnionBounds(chunks: seq<CollisionChunk>, ids: seq<nat>): Aabb
    requires InRange(chunks, ids)
  {
    if ids == [] then ORIGIN_BOX else UnionFold(Boxes(chunks, ids))
  }

  predicate Meets(chunks: seq<CollisionChunk>, k: nat, query: Aabb) {
    k < |chunks| && chunks[k].Bounds().Intersects(query)
  }

  /** The members of `ids` whose chunk meets `query`, in the order of `ids`. */
  function Matches(chunks: seq<CollisionChunk>, ids: seq<nat>, query: Aabb): seq<nat> {
    if ids == [] then
      []
    else
      var init := ids[..|ids| - 1];
      var last := ids[|ids| - 1];
      Matches(chunks, init, query) + (if Meets(chunks, last, query) then [last] else [])
  }

  /** The filter the hierarchy speeds up: test every chunk. */
  function BruteForce(chunks: seq<CollisionChunk>, query: Aabb): seq<nat> {
    Matches(chunks, Indices(|chunks|), query)
  }

  lemma {:induction false} MatchCount(chunks: seq<CollisionChunk>, ids: seq<nat>, query: Aabb, k: nat)
    ensures multiset(Matches(chunks, ids, query))[k] == if Meets(chunks, k, query) then multiset(ids)[k] else 0
  {
    if ids != [] {
      var init := ids[..|ids| - 1];
      MatchCount(chunks, init, query, k);
      assert ids == init + [ids[|ids| - 1]];
    }
  }

  lemma {:induction false} MatchesConcat(chunks: seq<CollisionChunk>, a: seq<nat>, b: seq<nat>, query: Aabb)
    ensures Matches(chunks, a + b, query) == Matches(chunks, a, query) + Matches(chunks, b, query)
  {
    if b == [] {
      assert a + b == a;
    } else {
      var init := b[..|b| - 1];
      MatchesConcat(chunks, a, init, query);
      assert (a + b)[..|a + b| - 1] == a + init;
    }
  }

  lemma {:induction false} NoMatchOutsideHull(
      chunks: seq<CollisionChunk>, ids: seq<nat>, hull: Aabb, query: Aabb)
    requires InRange(chunks, ids)
    requires forall i :: 0 <= i < |ids| ==> hull.Covers(chunks[ids[i]].Bounds())
    requires !hull.Intersects(query)
    ensures Matches(chunks, ids, query) == []
  {
    if ids != [] {
      NoMatchOutsideHull(chunks, ids[..|ids| - 1], hull, query);
    }
  }

  // ---------- The binary tree the node array stores ----------

  /**
   * A built subtree: `at` is its index in the node array; a leaf lists its chunks in stored order
   * and `first` is where that list starts in `leafIndices`.
   */
  datatype Tree =
    | Leaf(at: nat, box: Aabb, first: nat, ids: seq<nat>)
    | Branch(at: nat, box: Aabb, left: Tree, right: Tree)
  {
    function Items(): seq<nat> {
      match this case Leaf(_, _, _, ids) => ids case Branch(_, _, l, r) => l.Items() + r.Items()
    }

    function NodeCount(): (n: nat)
      ensures n >= 1
    {
      match this case Leaf(_, _, _, _) => 1 case Branch(_, _, l, r) => l.NodeCount() + r.NodeCount() + 1
    }

    function Leaves(): (n: nat)
      ensures n >= 1
    {
      match this case Leaf(_, _, _, _) => 1 case Branch(_, _, l, r) => l.Leaves() + r.Leaves()
    }

    function Height(): nat {
      match this case Leaf(_, _, _, _) => 0
      case Branch(_, _, l, r) => 1 + if l.Height() >= r.Height() then l.Height() else r.Height()
    }

    /** Median splits down to at most `DEFAULT_MAX_LEAF_CHUNKS` items. */
    predicate Balanced() {
      match this
      case Leaf(_, _, _, ids) => 1 <= |ids| <= DEFAULT_MAX_LEAF_CHUNKS
      case Branch(_, _, l, r) =>
        && |Items()| > DEFAULT_MAX_LEAF_CHUNKS
        && |l.Items()| == |Items()| / 2
        && l.Balanced() && r.Balanced()
    }

    /** Index of the first node of the subtree, which is stored in post order. */
    function Low(): nat { if Leaf? then at else left.Low() }

    /** Index of the first leaf reference of the subtree. */
    function FirstRef(): nat { if Leaf? then first else left.FirstRef() }

    /** What the node array holds for the root of the subtree. */
    function Entry(): BvhNode {
      match this
      case Leaf(_, _, _, _) => BvhNode(box, None, None, Some(LeafRange(first, |ids|)))
      case Branch(_, _, l, r) => BvhNode(box, Some(l.at), Some(r.at), None)
    }

    /** The subtree fills its stretch of both arrays: left part, right part, then the root node. */
    predicate Packed() {
      Branch? ==>
        && left.Packed() && right.Packed()
        && right.Low() == left.at + 1 && at == right.at + 1
        && right.FirstRef() == left.FirstRef() + |left.Items()|
    }

    /** Every leaf holds 2 to 4 items. */
    predicate LeavesOfTwoToFour() {
      match this
      case Leaf(_, _, _, ids) => 2 <= |ids| <= 4
      case Branch(_, _, l, r) => l.LeavesOfTwoToFour() && r.LeavesOfTwoToFour()
    }
  }

  function Pow2(n: nat): nat { if n == 0 then 1 else 2 * Pow2(n - 1) }

  lemma {:induction false} BalancedBounds(t: Tree)
    requires t.Balanced()
    ensures |t.Items()| >= 1
    ensures t.NodeCount() == 2 * t.Leaves() - 1
    ensures |t.Items()| >= 2 ==> t.LeavesOfTwoToFour() && t.NodeCount() <= |t.Items()| - 1
    ensures |t.Items()| == 1 ==> t.Leaf?
    ensures t.Height() == 0 || Pow2(t.Height() + 1) < |t.Items()|
  {
    match t {
      case Leaf(_, _, _, _) =>
      case Branch(_, _, l, r) =>
        BalancedBounds(l);
        BalancedBounds(r);
        if t.Height() == 1 {
          assert Pow2(2) == 2 * Pow2(1) == 4 * Pow2(0);
        }
    }
  }

  lemma {:induction false} Pow2Monotone(a: nat, b: nat)
    requires a <= b
    ensures Pow2(a) <= Pow2(b)
    decreases b
  {
    if a < b { Pow2Monotone(a, b - 1); }
  }

  // ---------- What a built tree satisfies ----------

  function Key(chunks: seq<CollisionChunk>, axis: nat, id: nat): real
    requires axis < 3
  {
    if id < |chunks| then chunks[id].Bounds().Center().At(axis) else 0.0
  }

  /** The builder's order: by centre along the axis, then by index. */
  predicate Before(chunks: seq<CollisionChunk>, axis: nat, a: nat, b: nat)
    requires axis < 3
  {
    Key(chunks, axis, a) < Key(chunks, axis, b) || (Key(chunks, axis, a) == Key(chunks, axis, b) && a <= b)
  }

  /** The order compares centres along the axis, and breaks ties by index: different chunks never tie. */
  lemma {:induction false} BeforeIsStrict(chunks: seq<CollisionChunk>, axis: nat, a: nat, b: nat)
    requires axis < 3 && a < |chunks| && b < |chunks|
    ensures Before(chunks, axis, a, b) && Before(chunks, axis, b, a) ==> a == b
    ensures Before(chunks, axis, a, b) ==>
      chunks[a].aabbMin.At(axis) + chunks[a].aabbMax.At(axis) <= chunks[b].aabbMin.At(axis) + chunks[b].aabbMax.At(axis)
  {
  }

  ghost predicate SplitAlong(chunks: seq<CollisionChunk>, axis: nat, left: seq<nat>, right: seq<nat>)
    requires axis < 3
  {
    forall a, b :: a in left && b in right ==> Before(chunks, axis, a, b)
  }

  /** Every box is the exact union of the chunks below it, every branch splits along its longest axis. */
  ghost predicate Faithful(chunks: seq<CollisionChunk>, t: Tree)
    decreases t
  {
    && InRange(chunks, t.Items())
    && t.box == UnionBounds(chunks, t.Items())
    && (t.Branch? ==>
          && SplitAlong(chunks, t.box.LongestAxis(), t.left.Items(), t.right.Items())
          && Faithful(chunks, t.left) && Faithful(chunks, t.right))
  }

  /** The arrays hold the subtree where it says it is. */
  ghost predicate Stored(nodes: seq<BvhNode>, refs: seq<nat>, t: Tree)
    decreases t
  {
    && t.at < |nodes| && nodes[t.at] == t.Entry()
    && match t
       case Leaf(_, _, first, ids) => first + |ids| <= |refs| && refs[first..first + |ids|] == ids
       case Branch(_, _, l, r) => Stored(nodes, refs, l) && Stored(nodes, refs, r)
  }

  lemma {:induction false} StoredGrows(
      nodes: seq<BvhNode>, refs: seq<nat>, nodes': seq<BvhNode>, refs': seq<nat>, t: Tree)
    requires Stored(nodes, refs, t) && nodes <= nodes' && refs <= refs'
    ensures Stored(nodes', refs', t)
    decreases t
  {
    match t {
      case Leaf(_, _, first, ids) =>
        assert refs'[first..first + |ids|] == refs[first..first + |ids|];
      case Branch(_, _, l, r) =>
        StoredGrows(nodes, refs, nodes', refs', l);
        StoredGrows(nodes, refs, nodes', refs', r);
    }
  }

  lemma {:induction false} PackedExtent(t: Tree)
    requires t.Packed()
    ensures t.Low() <= t.at && t.NodeCount() == t.at + 1 - t.Low()
  {
    if t.Branch? {
      PackedExtent(t.left);
      PackedExtent(t.right);
    }
  }

  ghost predicate BuiltAs(bvh: ChunkBoundsBvh, chunks: seq<CollisionChunk>, t: Tree) {
    && t.Balanced()
    && Faithful(chunks, t)
    && t.Packed() && t.Low() == 0 && t.FirstRef() == 0
    && Stored(bvh.nodes, bvh.leafIndices, t)
    && bvh.leafIndices == t.Items()
    && bvh.root == t.at == |bvh.nodes| - 1
    && multiset(t.Items()) == multiset(Indices(|chunks|))
  }

  ghost predicate Built(bvh: ChunkBoundsBvh, chunks: seq<CollisionChunk>) {
    exists t :: BuiltAs(bvh, chunks, t)
  }

  // ---------- Builder ----------

  lemma {:induction false} MembersOfPermutation(s: seq<nat>, t: seq<nat>)
    requires multiset(s) == multiset(t)
    ensures forall x :: x in s <==> x in t
  {
    forall x ensures x in s <==> x in t {
      assert x in s <==> x in multiset(s);
      assert x in t <==> x in multiset(t);
    }
  }

  /** The union of a list of boxes does not depend on their order. */
  lemma {:induction false} UnionOfPermutation(chunks: seq<CollisionChunk>, s: seq<nat>, t: seq<nat>)
    requires s != [] && InRange(chunks, s) && multiset(s) == multiset(t)
    ensures InRange(chunks, t) && UnionBounds(chunks, s) == UnionBounds(chunks, t)
  {
    SameBoxes(chunks, s, t);
    var bs, bt := Boxes(chunks, s), Boxes(chunks, t);
    assert t != [] by { assert |multiset(t)| == |multiset(s)|; }
    UnionFoldIsHull(bs);
    UnionFoldIsHull(bt);
    HullOfSameMembers(UnionFold(bs), bs, bt);
    HullIsUnique(UnionFold(bs), UnionFold(bt), bt);
  }

  lemma {:induction false} UnionCovers(chunks: seq<CollisionChunk>, ids: seq<nat>)
    requires InRange(chunks, ids)
    ensures forall i :: 0 <= i < |ids| ==> UnionBounds(chunks, ids).Covers(chunks[ids[i]].Bounds())
  {
    if ids != [] {
      var boxes := Boxes(chunks, ids);
      UnionFoldIsHull(boxes);
      forall i | 0 <= i < |ids| ensures UnionBounds(chunks, ids).Covers(chunks[ids[i]].Bounds()) {
        assert boxes[i] == chunks[ids[i]].Bounds();
      }
    }
  }

  lemma {:induction false} SameBoxes(chunks: seq<CollisionChunk>, s: seq<nat>, t: seq<nat>)
    requires InRange(chunks, s) && multiset(s) == multiset(t)
    ensures InRange(chunks, t)
    ensures forall b :: b in Boxes(chunks, s) <==> b in Boxes(chunks, t)
  {
    MembersOfPermutation(s, t);
    forall i | 0 <= i < |t| ensures t[i] < |chunks| { assert t[i] in s; }
    var bs, bt := Boxes(chunks, s), Boxes(chunks, t);
    forall b ensures b in bs <==> b in bt {
      if b in bs {
        var i :| 0 <= i < |bs| && bs[i] == b;
        assert s[i] in t;
        var j :| 0 <= j < |t| && t[j] == s[i];
        assert bt[j] == b;
      }
      if b in bt {
        var i :| 0 <= i < |bt| && bt[i] == b;
        assert t[i] in s;
        var j :| 0 <= j < |s| && s[j] == t[i];
        assert bs[j] == b;
      }
    }
  }

  lemma {:induction false} BeforeIsTotal(chunks: seq<CollisionChunk>, axis: nat)
    requires axis < 3
    ensures TotalPreorder((a: nat, b: nat) => Before(chunks, axis, a, b))
  {
  }

  /** Sorting and halving: both halves are non-empty, split along the axis, and lose nothing. */
  method SortAndHalve(chunks: seq<CollisionChunk>, axis: nat, ids: seq<nat>) returns (left: seq<nat>, right: seq<nat>)
    requires axis < 3 && InRange(chunks, ids)
    ensures |left| == |ids| / 2 && |left| + |right| == |ids|
    ensures multiset(left) + multiset(right) == multiset(ids)
    ensures InRange(chunks, left) && InRange(chunks, right)
    ensures SplitAlong(chunks, axis, left, right)
  {
    var le := (a: nat, b: nat) => Before(chunks, axis, a, b);
    var sorted := Sort(ids, le);
    var mid := |sorted| / 2;
    left, right := sorted[..mid], sorted[mid..];
    BeforeIsTotal(chunks, axis);
    SortSorts(ids, le);
    HalvesOf(chunks, axis, ids, le, left, right, sorted);
  }

  lemma {:induction false} HalvesOf(chunks: seq<CollisionChunk>, axis: nat, ids: seq<nat>, le: (nat, nat) -> bool,
      left: seq<nat>, right: seq<nat>, sorted: seq<nat>)
    requires axis < 3 && InRange(chunks, ids) && multiset(sorted) == multiset(ids)
    requires le == ((a: nat, b: nat) => Before(chunks, axis, a, b))
    requires left == sorted[..|sorted| / 2] && right == sorted[|sorted| / 2..]
    requires forall i, j :: 0 <= i < j < |sorted| ==> le(sorted[i], sorted[j])
    ensures |left| == |ids| / 2 && |left| + |right| == |ids|
    ensures multiset(left) + multiset(right) == multiset(ids)
    ensures InRange(chunks, left) && InRange(chunks, right)
    ensures SplitAlong(chunks, axis, left, right)
  {
    assert sorted == left + right;
    SameLength(sorted, ids);
    MembersOfPermutation(sorted, ids);
    forall i | 0 <= i < |sorted| ensures sorted[i] < |chunks| {
      assert sorted[i] in ids;
    }
    HalvesSplit(chunks, axis, left, right, sorted);
  }

  lemma {:induction false} HalvesSplit(
      chunks: seq<CollisionChunk>, axis: nat, left: seq<nat>, right: seq<nat>, sorted: seq<nat>)
    requires axis < 3 && sorted == left + right
    requires forall i, j :: 0 <= i < j < |sorted| ==> Before(chunks, axis, sorted[i], sorted[j])
    ensures SplitAlong(chunks, axis, left, right)
  {
    forall a, b | a in left && b in right ensures Before(chunks, axis, a, b) {
      var i :| 0 <= i < |left| && left[i] == a;
      var j :| 0 <= j < |right| && right[j] == b;
      assert sorted[i] == a && sorted[|left| + j] == b;
    }
  }

  lemma {:induction false} SplitOfPermutations(
      chunks: seq<CollisionChunk>, axis: nat, l: seq<nat>, r: seq<nat>, l': seq<nat>, r': seq<nat>)
    requires axis < 3 && SplitAlong(chunks, axis, l, r)
    requires multiset(l) == multiset(l') && multiset(r) == multiset(r')
    ensures SplitAlong(chunks, axis, l', r')
  {
    MembersOfPermutation(l, l');
    MembersOfPermutation(r, r');
  }

  class BvhBuilder {
    var nodes: seq<BvhNode>
    var leafIndices: seq<nat>

    constructor ()
      ensures nodes == [] && leafIndices == []
    {
      nodes, leafIndices := [], [];
    }

    method PushNode(node: BvhNode) returns (index: nat)
      requires |nodes| < U32_LIMIT
      modifies this`nodes
      ensures nodes == old(nodes) + [node] && index == |old(nodes)|
    {
      index := AsU32(|nodes|);
      nodes := nodes + [node];
    }

    method PushLeaf(chunks: seq<CollisionChunk>, bounds: Aabb, indices: seq<nat>) returns (root: nat, ghost t: Tree)
      requires 1 <= |indices| <= DEFAULT_MAX_LEAF_CHUNKS
      requires InRange(chunks, indices) && bounds == UnionBounds(chunks, indices)
      requires |nodes| < U32_LIMIT && |leafIndices| + |indices| < U32_LIMIT
      modifies this
      ensures t.Leaf? && t.Balanced() && Faithful(chunks, t) && t.ids == indices
      ensures t.at == root == |old(nodes)| && t.first == |old(leafIndices)|
      ensures nodes == old(nodes) + [t.Entry()] && leafIndices == old(leafIndices) + indices
      ensures Stored(nodes, leafIndices, t)
    {
      var first := |leafIndices|;
      leafIndices := leafIndices + indices;
      root := PushNode(BvhNode(bounds, None, None, Some(LeafRange(TryU32(first), TryU32(|indices|)))));
      t := Leaf(root, bounds, first, indices);
    }

    method BuildNode(chunks: seq<CollisionChunk>, indices: seq<nat>) returns (root: nat, ghost t: Tree)
      requires indices != [] && InRange(chunks, indices)
      requires |nodes| + |indices| <= U32_LIMIT && |leafIndices| + |indices| < U32_LIMIT
      modifies this
      ensures t.Balanced() && Faithful(chunks, t) && multiset(t.Items()) == multiset(indices)
      ensures t.Packed() && t.Low() == |old(nodes)| && t.FirstRef() == |old(leafIndices)|
      ensures old(nodes) <= nodes && root == t.at == |nodes| - 1
      ensures leafIndices == old(leafIndices) + t.Items()
      ensures Stored(nodes, leafIndices, t)
      decreases |indices|
    {
      hide Stored, UnionBounds;
      var bounds := UnionBounds(chunks, indices);
      if |indices| <= DEFAULT_MAX_LEAF_CHUNKS {
        root, t := PushLeaf(chunks, bounds, indices);
        return;
      }
      var leftIndices, rightIndices := SortAndHalve(chunks, bounds.LongestAxis(), indices);
      var left, l := BuildNode(chunks, leftIndices);
      HalfSize(l, leftIndices);
      ghost var nodes1, refs1 := nodes, leafIndices;
      var right, r := BuildNode(chunks, rightIndices);
      HalfSize(r, rightIndices);
      root, t := PushBranch(chunks, indices, bounds, leftIndices, rightIndices, left, right, l, r,
        old(leafIndices), nodes1, refs1);
    }

    /** The node over both halves, once they are stored. */
    method PushBranch(chunks: seq<CollisionChunk>, indices: seq<nat>, bounds: Aabb,
        ghost leftIds: seq<nat>, ghost rightIds: seq<nat>, left: nat, right: nat, ghost l: Tree, ghost r: Tree,
        ghost refs0: seq<nat>, ghost nodes1: seq<BvhNode>, ghost refs1: seq<nat>)
      returns (root: nat, ghost t: Tree)
      requires |indices| > DEFAULT_MAX_LEAF_CHUNKS && InRange(chunks, indices) && bounds == UnionBounds(chunks, indices)
      requires |nodes| < U32_LIMIT && left == l.at && right == r.at == |nodes| - 1
      requires |leftIds| == |indices| / 2 && multiset(leftIds) + multiset(rightIds) == multiset(indices)
      requires SplitAlong(chunks, bounds.LongestAxis(), leftIds, rightIds)
      requires Half(chunks, leftIds, nodes1, refs1, l) && Half(chunks, rightIds, nodes, leafIndices, r)
      requires r.Low() == l.at + 1 && r.FirstRef() == l.FirstRef() + |l.Items()|
      requires nodes1 <= nodes && refs1 == refs0 + l.Items() && leafIndices == refs1 + r.Items()
      modifies this`nodes
      ensures t == Branch(root, bounds, l, r) && root == |old(nodes)| && nodes == old(nodes) + [t.Entry()]
      ensures t.Balanced() && t.Packed() && leafIndices == refs0 + t.Items()
      ensures Faithful(chunks, t) && multiset(t.Items()) == multiset(indices) && Stored(nodes, leafIndices, t)
    {
      ghost var nodes2 := nodes;
      root := PushNode(BvhNode(bounds, Some(left), Some(right), None));
      t := Branch(root, bounds, l, r);
      SameLength(l.Items(), leftIds);
      BranchIsFaithful(chunks, indices, leftIds, rightIds, t);
      SameLength(t.Items(), indices);
      BranchIsStored(refs0, nodes1, refs1, nodes2, nodes, leafIndices, t);
    }
  }

  /** A finished subtree over a permutation of some indices. */
  ghost predicate Half(chunks: seq<CollisionChunk>, ids: seq<nat>, nodes: seq<BvhNode>, refs: seq<nat>, t: Tree) {
    && t.Balanced() && t.Packed() && Faithful(chunks, t)
    && multiset(t.Items()) == multiset(ids) && Stored(nodes, refs, t)
  }

  lemma {:induction false} HalfSize(t: Tree, ids: seq<nat>)
    requires t.Balanced() && t.Packed() && multiset(t.Items()) == multiset(ids)
    ensures |t.Items()| == |ids|
    ensures t.Low() <= t.at && t.at + 1 - t.Low() <= if |ids| == 1 then 1 else |ids| - 1
  {
    SameLength(t.Items(), ids);
    BalancedBounds(t);
    PackedExtent(t);
  }

  lemma {:induction false} SameLength(s: seq<nat>, t: seq<nat>)
    requires multiset(s) == multiset(t)
    ensures |s| == |t|
  {
    assert |multiset(s)| == |multiset(t)|;
  }

  /** Joining the trees of the two halves of `indices` gives a tree over `indices`. */
  lemma {:induction false} BranchIsFaithful(
      chunks: seq<CollisionChunk>, indices: seq<nat>, leftIds: seq<nat>, rightIds: seq<nat>, t: Tree)
    requires t.Branch? && InRange(chunks, indices) && t.box == UnionBounds(chunks, indices)
    requires multiset(leftIds) + multiset(rightIds) == multiset(indices)
    requires multiset(t.left.Items()) == multiset(leftIds) && multiset(t.right.Items()) == multiset(rightIds)
    requires SplitAlong(chunks, t.box.LongestAxis(), leftIds, rightIds)
    requires Faithful(chunks, t.left) && Faithful(chunks, t.right) && indices != []
    ensures multiset(t.Items()) == multiset(indices) && Faithful(chunks, t)
  {
    assert multiset(t.Items()) == multiset(t.left.Items()) + multiset(t.right.Items());
    UnionOfPermutation(chunks, indices, t.Items());
    SplitOfPermutations(chunks, t.box.LongestAxis(), leftIds, rightIds, t.left.Items(), t.right.Items());
  }

  /** Both subtrees stay stored while the right one and then their parent are appended. */
  lemma {:induction false} BranchIsStored(
      refs0: seq<nat>, nodes1: seq<BvhNode>, refs1: seq<nat>, nodes2: seq<BvhNode>, nodes: seq<BvhNode>,
      refs: seq<nat>, t: Tree)
    requires t.Branch? && Stored(nodes1, refs1, t.left) && Stored(nodes2, refs, t.right)
    requires nodes1 <= nodes2 && nodes == nodes2 + [t.Entry()] && t.at == |nodes2|
    requires refs1 == refs0 + t.left.Items() && refs == refs1 + t.right.Items()
    ensures Stored(nodes, refs, t) && refs == refs0 + t.Items()
  {
    Appended(refs0, t.left.Items(), t.right.Items());
    StoredGrows(nodes1, refs1, nodes, refs, t.left);
    StoredGrows(nodes2, refs, nodes, refs, t.right);
  }

  datatype BuildError = NoChunks

  method BuildChunkBoundsBvh(chunks: seq<CollisionChunk>) returns (r: Result<ChunkBoundsBvh, BuildError>)
    requires |chunks| < U32_LIMIT
    ensures chunks == [] ==> r == Err(NoChunks)
    ensures chunks != [] ==> r.Ok? && Built(r.value, chunks)
  {
    if chunks == [] {
      return Err(NoChunks);
    }
    var builder := new BvhBuilder();
    var indices := seq(|chunks|, i requires 0 <= i < |chunks| => TryU32(i));
    assert indices == Indices(|chunks|);
    var root, t := builder.BuildNode(chunks, indices);
    var bvh := ChunkBoundsBvh(root, builder.nodes, builder.leafIndices);
    assert BuiltAs(bvh, chunks, t);
    r := Ok(bvh);
  }

  /** Leaves of 2 to 4 chunks, under n nodes, logarithmic height, children stored before parents. */
  lemma {:induction false} BuiltShape(bvh: ChunkBoundsBvh, chunks: seq<CollisionChunk>, t: Tree)
    requires BuiltAs(bvh, chunks, t)
    ensures |bvh.nodes| == 2 * t.Leaves() - 1
    ensures |bvh.nodes| <= if |chunks| == 1 then 1 else |chunks| - 1
    ensures |chunks| >= 2 ==> t.LeavesOfTwoToFour()
    ensures t.Height() == 0 || Pow2(t.Height() + 1) < |chunks|
    ensures forall i :: 0 <= i < |bvh.nodes| && bvh.nodes[i].left.Some? ==> bvh.nodes[i].left.value < i
    ensures forall i :: 0 <= i < |bvh.nodes| && bvh.nodes[i].right.Some? ==> bvh.nodes[i].right.value < i
  {
    SameLength(t.Items(), Indices(|chunks|));
    BalancedBounds(t);
    PackedExtent(t);
    ChildrenPrecede(bvh.nodes, bvh.leafIndices, t);
    forall i | 0 <= i < |bvh.nodes|
      ensures ChildrenBefore(bvh.nodes[i], i)
    {
    }
  }

  /** The leaf nodes of a built hierarchy: of two or more chunks each holds two to four, a single chunk has one. */
  lemma {:induction false} BuiltLeafSizes(bvh: ChunkBoundsBvh, chunks: seq<CollisionChunk>, i: nat)
    requires Built(bvh, chunks) && i < |bvh.nodes| && bvh.nodes[i].leaf.Some?
    ensures if |chunks| == 1 then bvh.nodes[i].leaf.value.count == 1 else 2 <= bvh.nodes[i].leaf.value.count <= 4
  {
    var t :| BuiltAs(bvh, chunks, t);
    SameLength(t.Items(), Indices(|chunks|));
    BalancedBounds(t);
    PackedExtent(t);
    LeafSizeAt(bvh.nodes, bvh.leafIndices, t, i);
  }

  lemma {:induction false} LeafSizeAt(nodes: seq<BvhNode>, refs: seq<nat>, t: Tree, i: nat)
    requires Stored(nodes, refs, t) && t.Packed() && t.Balanced() && t.Low() <= i <= t.at && nodes[i].leaf.Some?
    ensures |t.Items()| >= 2 ==> 2 <= nodes[i].leaf.value.count <= 4
    ensures |t.Items()| == 1 ==> nodes[i].leaf.value.count == 1
    decreases t
  {
    BalancedBounds(t);
    if t.Branch? {
      PackedExtent(t.left);
      PackedExtent(t.right);
      BalancedBounds(t.left);
      BalancedBounds(t.right);
      if i <= t.left.at {
        LeafSizeAt(nodes, refs, t.left, i);
      } else if i < t.at {
        LeafSizeAt(nodes, refs, t.right, i);
      }
    }
  }

  predicate ChildrenBefore(node: BvhNode, i: nat) {
    && (node.left.Some? ==> node.left.value < i)
    && (node.right.Some? ==> node.right.value < i)
  }

  lemma {:induction false} ChildrenPrecede(nodes: seq<BvhNode>, refs: seq<nat>, t: Tree)
    requires Stored(nodes, refs, t) && t.Packed()
    ensures forall i :: t.Low() <= i <= t.at ==> ChildrenBefore(nodes[i], i)
    decreases t
  {
    if t.Branch? {
      ChildrenPrecede(nodes, refs, t.left);
      ChildrenPrecede(nodes, refs, t.right);
      PackedExtent(t.right);
    }
  }
}
