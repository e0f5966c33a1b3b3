/** `CollisionWorld::validate` and the separate check of the node array. */
module BvhValidation {
  import opened Results
  import opened Geometry
  import opened Bvh
  import opened BvhQuery
  import opened Sequences
  import Text

  const COLLISION_WORLD_VERSION: nat := 1
  const BOUNDS_EPS: real := 0.0001

  datatype PartitionKind = Quadtree2d | Octree3d

  datatype CollisionWorld = CollisionWorld(
    version: nat,
    partitionKind: PartitionKind,
    spaceOrigin: Vec3,
    rootBounds: Aabb,
    mapToWorldScale: real,
    chunks: seq<CollisionChunk>,
    chunkBoundsBvh: ChunkBoundsBvh
  )

  datatype ValidationConfig = ValidationConfig(maxTrianglesPerChunk: nat, maxChunks: nat)

  datatype ValidationError =
    | UnsupportedVersion | BadScale | InvalidRootBounds | RootMissesChunks
    | EmptyChunkId(chunk: nat) | InvalidChunkBounds(chunk: nat) | EmptyPayloadRef(chunk: nat)
    | NoNodes | RootOutOfRange
    | InvalidNodeBounds(node: nat) | ChildOutOfRange(node: nat) | ChildrenNotContained(node: nat)
    | LeafOutOfRange(node: nat) | LeafNotContained(node: nat) | BadNodeKind(node: nat)
    | MissingChunk(ref: nat) | RepeatedChunk(ref: nat) | UncoveredChunk(ref: nat)

  datatype ValidationWarning =
    | EmptyWorld | TooManyChunks | NoTriangles(chunk: nat) | TooManyTriangles(chunk: nat) | RootDiffersFromUnion

  // ---------- What the node check accepts ----------

  predicate IsLeafNode(node: BvhNode) {
    node.left.None? && node.right.None? && node.leaf.Some?
  }

  /** `refs[first..first + count]`, one after the other. */
  function Stretch(refs: seq<nat>, first: nat, count: nat): seq<nat>
    requires first + count <= |refs|
  {
    if count == 0 then [] else Stretch(refs, first, count - 1) + [refs[first + count - 1]]
  }

  lemma {:induction false} StretchIsSlice(refs: seq<nat>, first: nat, count: nat)
    requires first + count <= |refs|
    ensures Stretch(refs, first, count) == refs[first..first + count]
  {
    if count > 0 {
      StretchIsSlice(refs, first, count - 1);
    }
  }

  /** The references a leaf node stands for; none when its range leaves the list. */
  function RefsOf(bvh: ChunkBoundsBvh, node: BvhNode): seq<nat> {
    if IsLeafNode(node) && node.leaf.value.first + node.leaf.value.count <= |bvh.leafIndices| then
      Stretch(bvh.leafIndices, node.leaf.value.first, node.leaf.value.count)
    else
      []
  }

  /** The references of the first `k` nodes, in node order. */
  function RefsUpTo(bvh: ChunkBoundsBvh, k: nat): seq<nat>
    requires k <= |bvh.nodes|
  {
    if k == 0 then [] else RefsUpTo(bvh, k - 1) + RefsOf(bvh, bvh.nodes[k - 1])
  }

  ghost predicate LeafOk(bvh: ChunkBoundsBvh, chunks: seq<CollisionChunk>, node: BvhNode)
    requires IsLeafNode(node)
  {
    && node.leaf.value.first + node.leaf.value.count <= |bvh.leafIndices|
    && InRange(chunks, RefsOf(bvh, node))
    && (RefsOf(bvh, node) != [] ==>
          node.bounds.Contains(UnionBounds(chunks, RefsOf(bvh, node)), BOUNDS_EPS))
  }

  predicate BranchOk(bvh: ChunkBoundsBvh, node: BvhNode)
    requires node.left.Some? && node.right.Some?
  {
    && node.left.value < |bvh.nodes| && node.right.value < |bvh.nodes|
    && node.bounds.Contains(
         bvh.nodes[node.left.value].bounds.Union(bvh.nodes[node.right.value].bounds), BOUNDS_EPS)
  }

  /** A node is a leaf or a branch, never both or neither, and holds what is below it. */
  ghost predicate NodeOk(bvh: ChunkBoundsBvh, chunks: seq<CollisionChunk>, node: BvhNode) {
    && node.bounds.Valid()
    && (if IsLeafNode(node) then LeafOk(bvh, chunks, node)
        else node.left.Some? && node.right.Some? && node.leaf.None? && BranchOk(bvh, node))
  }

  /** The first `k` nodes are sound. */
  ghost predicate NodesOk(bvh: ChunkBoundsBvh, chunks: seq<CollisionChunk>, k: nat)
    requires k <= |bvh.nodes|
  {
    k == 0 || (NodesOk(bvh, chunks, k - 1) && NodeOk(bvh, chunks, bvh.nodes[k - 1]))
  }

  ghost predicate AtMostOnce(refs: seq<nat>, c: nat) {
    multiset(refs)[c] <= 1
  }

  ghost predicate NoRepeats(chunks: seq<CollisionChunk>, refs: seq<nat>) {
    forall c: nat :: c < |chunks| ==> AtMostOnce(refs, c)
  }

  /** `more` repeats no chunk, neither within itself nor one of `before`. */
  ghost predicate Extends(chunks: seq<CollisionChunk>, before: seq<nat>, more: seq<nat>) {
    forall c: nat :: c < |chunks| ==> FitsAfter(before, more, c)
  }

  ghost predicate FitsAfter(before: seq<nat>, more: seq<nat>, c: nat) {
    multiset(more)[c] <= if c in before then 0 else 1
  }

  /** The flags record exactly the chunks in `refs`. */
  ghost predicate Marks(flags: seq<bool>, refs: seq<nat>) {
    forall c: nat :: c < |flags| ==> (flags[c] <==> c in refs)
  }

  ghost predicate CoversEveryChunk(chunks: seq<CollisionChunk>, refs: seq<nat>) {
    forall c: nat :: c < |chunks| ==> c in refs
  }

  ghost predicate ValidBvh(bvh: ChunkBoundsBvh, chunks: seq<CollisionChunk>) {
    && bvh.nodes != [] && bvh.root < |bvh.nodes|
    && NodesOk(bvh, chunks, |bvh.nodes|)
    && NoRepeats(chunks, RefsUpTo(bvh, |bvh.nodes|))
    && CoversEveryChunk(chunks, RefsUpTo(bvh, |bvh.nodes|))
  }

  // ---------- The node check ----------

  /** Marks one leaf's chunks and unions their boxes; `before` are the references already marked. */
  method MarkLeaf(chunks: seq<CollisionChunk>, refs: seq<nat>, coverage: array<bool>, ghost before: seq<nat>)
    returns (errors: seq<ValidationError>, union: Option<Aabb>)
    requires coverage.Length == |chunks| && Marks(coverage[..], before)
    modifies coverage
    ensures Marks(coverage[..], before + refs)
    ensures errors == [] <==> InRange(chunks, refs) && Extends(chunks, before, refs)
    ensures InRange(chunks, refs) ==> union == if refs == [] then None else Some(UnionBounds(chunks, refs))
  {
    errors, union := [], None;
    assert before + refs[..0] == before;
    for i := 0 to |refs|
      invariant Marks(coverage[..], before + refs[..i])
      invariant errors == [] <==> InRange(chunks, refs[..i]) && Extends(chunks, before, refs[..i])
      invariant InRange(chunks, refs[..i]) ==>
        union == if i == 0 then None else Some(UnionBounds(chunks, refs[..i]))
    {
      var ref := refs[i];
      UnionStep(chunks, refs, i);
      ExtendsStep(chunks, before, refs, i);
      assert before + refs[..i + 1] == before + refs[..i] + [ref];
      if ref >= |chunks| {
        errors := errors + [MissingChunk(ref)];
      } else {
        if coverage[ref] {
          errors := errors + [RepeatedChunk(ref)];
        }
        coverage[ref] := true;
        var box := chunks[ref].Bounds();
        union := Some(if union.Some? then union.value.Union(box) else box);
      }
    }
    assert refs[..|refs|] == refs;
  }

  lemma {:induction false} UnionStep(chunks: seq<CollisionChunk>, refs: seq<nat>, i: nat)
    requires i < |refs|
    ensures InRange(chunks, refs[..i + 1]) <==> InRange(chunks, refs[..i]) && refs[i] < |chunks|
    ensures InRange(chunks, refs[..i + 1]) && i > 0 ==>
      UnionBounds(chunks, refs[..i + 1]) == UnionBounds(chunks, refs[..i]).Union(chunks[refs[i]].Bounds())
  {
    assert refs[..i + 1] == refs[..i] + [refs[i]];
    assert refs[..i + 1][i] == refs[i];
    assert forall k :: 0 <= k < i ==> refs[..i][k] == refs[..i + 1][k];
    if InRange(chunks, refs[..i + 1]) {
      assert Boxes(chunks, refs[..i + 1])[..i] == Boxes(chunks, refs[..i]);
    }
  }

  lemma {:induction false} ExtendsStep(chunks: seq<CollisionChunk>, before: seq<nat>, refs: seq<nat>, i: nat)
    requires i < |refs|
    ensures Extends(chunks, before, refs[..i + 1]) <==>
      && Extends(chunks, before, refs[..i])
      && (refs[i] < |chunks| ==> refs[i] !in before + refs[..i])
  {
    var ref, prefix, after := refs[i], refs[..i], refs[..i + 1];
    assert after == prefix + [ref];
    forall c: nat
      ensures FitsAfter(before, after, c) <==> FitsAfter(before, prefix, c) && (c == ref ==> c !in before + prefix)
    {
      CountOfConcat(prefix, [ref], c);
      CountOfConcat(before, prefix, c);
    }
    if Extends(chunks, before, after) {
      forall c: nat | c < |chunks| ensures FitsAfter(before, prefix, c) {
        assert FitsAfter(before, after, c);
      }
      assert ref < |chunks| ==> FitsAfter(before, after, ref);
    }
  }

  method ValidateChunkBoundsBvh(bvh: ChunkBoundsBvh, chunks: seq<CollisionChunk>)
    returns (errors: seq<ValidationError>)
    ensures errors == [] <==> ValidBvh(bvh, chunks)
    ensures errors == [] ==> forall i, c, p: Vec3
      | 0 <= i < |bvh.nodes| && 0 <= c < |chunks| && c in RefsOf(bvh, bvh.nodes[i]) && chunks[c].Bounds().Has(p)
      :: Near(bvh.nodes[i].bounds, p, 0.0001)
  {
    errors := [];
    if bvh.nodes == [] {
      return [NoNodes];
    }
    if bvh.root >= |bvh.nodes| {
      errors := errors + [RootOutOfRange];
    }
    var coverage := new bool[|chunks|](_ => false);
    var found := ValidateNodes(bvh, chunks, coverage);
    errors := errors + found;
    var uncovered := ReportUncovered(coverage);
    errors := errors + uncovered;
    Verdict(bvh, chunks, coverage[..]);
    if errors == [] {
      LeavesAreNear(bvh, chunks);
    }
  }

  lemma {:induction false} LeavesAreNear(bvh: ChunkBoundsBvh, chunks: seq<CollisionChunk>)
    requires ValidBvh(bvh, chunks)
    ensures forall i, c, p: Vec3
      | 0 <= i < |bvh.nodes| && 0 <= c < |chunks| && c in RefsOf(bvh, bvh.nodes[i]) && chunks[c].Bounds().Has(p)
      :: Near(bvh.nodes[i].bounds, p, 0.0001)
  {
    forall i, c, p: Vec3 | 0 <= i < |bvh.nodes| && 0 <= c < |chunks| && c in RefsOf(bvh, bvh.nodes[i])
        && chunks[c].Bounds().Has(p)
      ensures Near(bvh.nodes[i].bounds, p, 0.0001)
    {
      LeafIsNear(bvh, chunks, i, c, p);
    }
  }

  /** The loop over the nodes. */
  method ValidateNodes(bvh: ChunkBoundsBvh, chunks: seq<CollisionChunk>, coverage: array<bool>)
    returns (errors: seq<ValidationError>)
    requires coverage.Length == |chunks| && Marks(coverage[..], [])
    modifies coverage
    ensures Marks(coverage[..], RefsUpTo(bvh, |bvh.nodes|))
    ensures errors == [] <==> NodesOk(bvh, chunks, |bvh.nodes|) && NoRepeats(chunks, RefsUpTo(bvh, |bvh.nodes|))
  {
    errors := [];
    ghost var refs := [];
    NothingRepeats(chunks);
    for i := 0 to |bvh.nodes|
      invariant refs == RefsUpTo(bvh, i) && Marks(coverage[..], refs)
      invariant errors == [] <==> NodesOk(bvh, chunks, i) && NoRepeats(chunks, refs)
    {
      errors, refs := NextNode(bvh, chunks, coverage, i, errors, refs);
    }
  }

  lemma {:induction false} NothingRepeats(chunks: seq<CollisionChunk>)
    ensures NoRepeats(chunks, [])
  {
  }

  /** One turn of the node loop. */
  method NextNode(bvh: ChunkBoundsBvh, chunks: seq<CollisionChunk>, coverage: array<bool>, i: nat,
                  before: seq<ValidationError>, ghost refs: seq<nat>)
    returns (errors: seq<ValidationError>, ghost allRefs: seq<nat>)
    requires i < |bvh.nodes| && coverage.Length == |chunks|
    requires refs == RefsUpTo(bvh, i) && Marks(coverage[..], refs)
    requires before == [] <==> NodesOk(bvh, chunks, i) && NoRepeats(chunks, refs)
    modifies coverage
    ensures allRefs == RefsUpTo(bvh, i + 1) && Marks(coverage[..], allRefs)
    ensures errors == [] <==> NodesOk(bvh, chunks, i + 1) && NoRepeats(chunks, allRefs)
  {
    ghost var more := RefsOf(bvh, bvh.nodes[i]);
    RefsMore(bvh, i, refs, more);
    RefsStep(chunks, refs, more, refs + more);
    var found := ValidateNode(bvh, chunks, i, coverage, refs, more);
    errors, allRefs := before + found, refs + more;
  }

  lemma {:induction false} RefsMore(bvh: ChunkBoundsBvh, i: nat, refs: seq<nat>, more: seq<nat>)
    requires i < |bvh.nodes| && refs == RefsUpTo(bvh, i) && more == RefsOf(bvh, bvh.nodes[i])
    ensures RefsUpTo(bvh, i + 1) == refs + more
  {
  }

  lemma {:induction false} Verdict(bvh: ChunkBoundsBvh, chunks: seq<CollisionChunk>, flags: seq<bool>)
    requires |flags| == |chunks| && Marks(flags, RefsUpTo(bvh, |bvh.nodes|)) && bvh.nodes != []
    ensures ValidBvh(bvh, chunks) <==>
      && bvh.root < |bvh.nodes|
      && NodesOk(bvh, chunks, |bvh.nodes|) && NoRepeats(chunks, RefsUpTo(bvh, |bvh.nodes|))
      && forall c :: 0 <= c < |flags| ==> flags[c]
  {
    FlagsCover(chunks, flags, RefsUpTo(bvh, |bvh.nodes|));
  }

  lemma {:induction false} FlagsCover(chunks: seq<CollisionChunk>, flags: seq<bool>, refs: seq<nat>)
    requires |flags| == |chunks| && Marks(flags, refs)
    ensures CoversEveryChunk(chunks, refs) <==> forall c :: 0 <= c < |flags| ==> flags[c]
  {
  }

  method ReportUncovered(coverage: array<bool>) returns (errors: seq<ValidationError>)
    ensures errors == [] <==> forall c :: 0 <= c < coverage.Length ==> coverage[c]
  {
    errors := [];
    for c := 0 to coverage.Length
      invariant errors == [] <==> forall k :: 0 <= k < c ==> coverage[k]
    {
      if !coverage[c] {
        errors := errors + [UncoveredChunk(c)];
      }
    }
  }

  /** One turn of the node loop: accepts the node and its references, or reports why not. */
  method ValidateNode(
      bvh: ChunkBoundsBvh, chunks: seq<CollisionChunk>, i: nat, coverage: array<bool>, ghost before: seq<nat>,
      ghost more: seq<nat>)
    returns (errors: seq<ValidationError>)
    requires i < |bvh.nodes| && coverage.Length == |chunks| && Marks(coverage[..], before)
    requires more == RefsOf(bvh, bvh.nodes[i])
    modifies coverage
    ensures Marks(coverage[..], before + more)
    ensures errors == [] <==> NodeOk(bvh, chunks, bvh.nodes[i]) && Extends(chunks, before, more)
  {
    var node := bvh.nodes[i];
    assert before + [] == before;
    errors := if node.bounds.Valid() then [] else [InvalidNodeBounds(i)];
    if node.left.Some? && node.right.Some? && node.leaf.None? {
      if node.left.value >= |bvh.nodes| || node.right.value >= |bvh.nodes| {
        errors := errors + [ChildOutOfRange(i)];
      } else {
        var expected := bvh.nodes[node.left.value].bounds.Union(bvh.nodes[node.right.value].bounds);
        if !node.bounds.Contains(expected, BOUNDS_EPS) {
          errors := errors + [ChildrenNotContained(i)];
        }
      }
    } else if IsLeafNode(node) {
      var start, count := node.leaf.value.first, node.leaf.value.count;
      if start + count > |bvh.leafIndices| {
        errors := errors + [LeafOutOfRange(i)];
      } else {
        StretchIsSlice(bvh.leafIndices, start, count);
        var found, union := MarkLeaf(chunks, bvh.leafIndices[start..start + count], coverage, before);
        errors := errors + found;
        if union.Some? && !node.bounds.Contains(union.value, BOUNDS_EPS) {
          errors := errors + [LeafNotContained(i)];
        }
      }
    } else {
      errors := errors + [BadNodeKind(i)];
    }
  }

  lemma {:induction false} RefsStep(chunks: seq<CollisionChunk>, before: seq<nat>, more: seq<nat>, after: seq<nat>)
    requires after == before + more
    ensures NoRepeats(chunks, after) <==> NoRepeats(chunks, before) && Extends(chunks, before, more)
  {
    forall c: nat ensures AtMostOnce(after, c) <==> AtMostOnce(before, c) && FitsAfter(before, more, c) {
      CountOfConcat(before, more, c);
    }
  }

  lemma {:induction false} CountOfConcat(a: seq<nat>, b: seq<nat>, c: nat)
    ensures multiset(a + b)[c] == multiset(a)[c] + multiset(b)[c]
    ensures c in a <==> multiset(a)[c] > 0
  {
  }

  // ---------- Built hierarchies pass ----------

  ghost predicate ChunkBoxesValid(chunks: seq<CollisionChunk>) {
    forall i :: 0 <= i < |chunks| ==> chunks[i].Bounds().Valid()
  }

  lemma {:induction false} UnionIsMonotone(chunks: seq<CollisionChunk>, part: seq<nat>, whole: seq<nat>)
    requires InRange(chunks, part) && InRange(chunks, whole) && part != []
    requires forall x :: x in part ==> x in whole
    ensures UnionBounds(chunks, whole).Covers(UnionBounds(chunks, part))
  {
    var box, boxes := UnionBounds(chunks, whole), Boxes(chunks, part);
    UnionCovers(chunks, whole);
    UnionFoldIsHull(boxes);
    forall i | 0 <= i < |boxes| ensures box.Covers(boxes[i]) {
      assert part[i] in whole;
    }
    assert CoversAll(box, boxes);
  }

  lemma {:induction false} UnionOfValidIsValid(chunks: seq<CollisionChunk>, ids: seq<nat>)
    requires InRange(chunks, ids) && ids != [] && ChunkBoxesValid(chunks)
    ensures UnionBounds(chunks, ids).Valid()
  {
    UnionCovers(chunks, ids);
    assert chunks[ids[0]].Bounds().Valid();
  }

  lemma {:induction false} BranchBoxContains(chunks: seq<CollisionChunk>, t: Tree)
    requires t.Branch? && Faithful(chunks, t) && t.left.Balanced() && t.right.Balanced()
    ensures t.box.Contains(t.left.box.Union(t.right.box), BOUNDS_EPS)
  {
    BalancedBounds(t.left);
    BalancedBounds(t.right);
    UnionIsMonotone(chunks, t.left.Items(), t.Items());
    UnionIsMonotone(chunks, t.right.Items(), t.Items());
    assert t.box.Covers(t.left.box.Union(t.right.box));
  }

  /** The node at the root of a stored faithful tree is sound. */
  lemma {:induction false} RootNodeOk(bvh: ChunkBoundsBvh, chunks: seq<CollisionChunk>, t: Tree)
    requires Stored(bvh.nodes, bvh.leafIndices, t) && Faithful(chunks, t) && t.Balanced()
    requires ChunkBoxesValid(chunks)
    ensures NodeOk(bvh, chunks, t.Entry())
  {
    BalancedBounds(t);
    UnionOfValidIsValid(chunks, t.Items());
    if t.Branch? {
      BranchBoxContains(chunks, t);
    } else {
      StretchIsSlice(bvh.leafIndices, t.first, |t.ids|);
    }
  }

  /** All nodes of a stored tree are sound, when those before it are. */
  lemma {:induction false} StoredNodesOk(bvh: ChunkBoundsBvh, chunks: seq<CollisionChunk>, t: Tree, low: nat)
    requires Stored(bvh.nodes, bvh.leafIndices, t) && t.Packed()
    requires Faithful(chunks, t) && t.Balanced() && ChunkBoxesValid(chunks)
    requires low == t.Low() < |bvh.nodes| && NodesOk(bvh, chunks, low)
    ensures t.at < |bvh.nodes| && NodesOk(bvh, chunks, t.at + 1)
    decreases t
  {
    hide NodeOk;
    if t.Branch? {
      BranchShape(bvh, t, low, t.left.at + 1, t.right.at + 1);
      StoredNodesOk(bvh, chunks, t.left, low);
      StoredNodesOk(bvh, chunks, t.right, t.left.at + 1);
    }
    OneMoreNodeOk(bvh, chunks, t);
  }

  lemma {:induction false} OneMoreNodeOk(bvh: ChunkBoundsBvh, chunks: seq<CollisionChunk>, t: Tree)
    requires Stored(bvh.nodes, bvh.leafIndices, t) && NodesOk(bvh, chunks, t.at)
    requires Faithful(chunks, t) && t.Balanced() && ChunkBoxesValid(chunks)
    ensures NodesOk(bvh, chunks, t.at + 1)
  {
    RootNodeOk(bvh, chunks, t);
  }

  lemma {:induction false} LeafRefs(bvh: ChunkBoundsBvh, t: Tree)
    requires Stored(bvh.nodes, bvh.leafIndices, t) && t.Leaf?
    ensures RefsUpTo(bvh, t.at + 1) == RefsUpTo(bvh, t.at) + t.ids
  {
    StretchIsSlice(bvh.leafIndices, t.first, |t.ids|);
    assert RefsOf(bvh, t.Entry()) == t.ids;
  }

  /** The right part of a branch starts where its left part ends, and the branch itself has no references. */
  lemma {:induction false} BranchShape(bvh: ChunkBoundsBvh, t: Tree, low: nat, mid: nat, end: nat)
    requires Stored(bvh.nodes, bvh.leafIndices, t) && t.Packed() && t.Branch?
    requires low == t.Low() && mid == t.left.at + 1 && end == t.right.at + 1
    ensures Stored(bvh.nodes, bvh.leafIndices, t.left) && t.left.Packed() && low == t.left.Low()
    ensures Stored(bvh.nodes, bvh.leafIndices, t.right) && t.right.Packed() && mid == t.right.Low()
    ensures end == t.at < |bvh.nodes| && mid < |bvh.nodes|
    ensures RefsUpTo(bvh, t.at + 1) == RefsUpTo(bvh, end)
  {
    PackedExtent(t.right);
    Grown(RefsUpTo(bvh, end));
    assert RefsOf(bvh, t.Entry()) == [];
  }

  lemma {:induction false} JoinRefs(bvh: ChunkBoundsBvh, t: Tree, before: seq<nat>, between: seq<nat>, after: seq<nat>)
    requires t.Branch? && t.at < |bvh.nodes| && RefsUpTo(bvh, t.at + 1) == after
    requires between == before + t.left.Items() && after == between + t.right.Items()
    ensures RefsUpTo(bvh, t.at + 1) == before + t.Items()
  {
    Appended(before, t.left.Items(), t.right.Items());
  }

  /** The references of a stored tree's nodes are the tree's items in order. */
  lemma {:induction false} StoredRefs(bvh: ChunkBoundsBvh, t: Tree, low: nat, before: seq<nat>)
    requires Stored(bvh.nodes, bvh.leafIndices, t) && t.Packed()
    requires low == t.Low() < |bvh.nodes| && before == RefsUpTo(bvh, low)
    ensures t.at < |bvh.nodes| && RefsUpTo(bvh, t.at + 1) == before + t.Items()
    decreases t
  {
    hide RefsUpTo, RefsOf;
    if t.Leaf? {
      LeafRefs(bvh, t);
    } else {
      var mid, end := t.left.at + 1, t.right.at + 1;
      BranchShape(bvh, t, low, mid, end);
      var between, after := RefsUpTo(bvh, mid), RefsUpTo(bvh, end);
      StoredRefs(bvh, t.left, low, before);
      StoredRefs(bvh, t.right, mid, between);
      JoinRefs(bvh, t, before, between, after);
    }
  }

  lemma {:induction false} BuiltNodesOk(bvh: ChunkBoundsBvh, chunks: seq<CollisionChunk>, t: Tree)
    requires BuiltAs(bvh, chunks, t) && ChunkBoxesValid(chunks)
    ensures NodesOk(bvh, chunks, |bvh.nodes|)
  {
    StoredNodesOk(bvh, chunks, t, 0);
  }

  lemma {:induction false} BuiltRefs(bvh: ChunkBoundsBvh, chunks: seq<CollisionChunk>, t: Tree)
    requires BuiltAs(bvh, chunks, t)
    ensures RefsUpTo(bvh, |bvh.nodes|) == t.Items()
  {
    StoredRefs(bvh, t, 0, []);
    Grown(t.Items());
  }

  lemma {:induction false} BuiltIsValid(bvh: ChunkBoundsBvh, chunks: seq<CollisionChunk>)
    requires Built(bvh, chunks) && ChunkBoxesValid(chunks)
    ensures ValidBvh(bvh, chunks)
  {
    var t :| BuiltAs(bvh, chunks, t);
    BuiltNodesOk(bvh, chunks, t);
    BuiltRefs(bvh, chunks, t);
    PermutationIsCover(chunks, t.Items());
  }

  lemma {:induction false} PermutationIsCover(chunks: seq<CollisionChunk>, refs: seq<nat>)
    requires multiset(refs) == multiset(Indices(|chunks|))
    ensures NoRepeats(chunks, refs) && CoversEveryChunk(chunks, refs)
  {
    forall c: nat | c < |chunks| ensures AtMostOnce(refs, c) && c in refs {
      IndicesOnce(|chunks|, c);
      CountOfConcat(refs, [], c);
    }
  }

  // ---------- What the check does not see ----------

  /** One chunk in a leaf, and a root that is its own child on both sides. */
  function LoopedBvh(box: Aabb): ChunkBoundsBvh {
    ChunkBoundsBvh(1, [BvhNode(box, None, None, Some(LeafRange(0, 1))), BvhNode(box, Some(1), Some(1), None)], [0])
  }

  lemma {:induction false} LoopedRefs(box: Aabb)
    ensures RefsUpTo(LoopedBvh(box), 2) == [0] && RefsOf(LoopedBvh(box), LoopedBvh(box).nodes[0]) == [0]
  {
    var bvh := LoopedBvh(box);
    StretchIsSlice(bvh.leafIndices, 0, 1);
    assert RefsUpTo(bvh, 1) == RefsUpTo(bvh, 0) + RefsOf(bvh, bvh.nodes[0]);
  }

  /** The check accepts a cycle, on which a query that meets its box never ends. */
  lemma {:induction false} ValidCycleNeverEnds(chunk: CollisionChunk, query: Aabb, turns: nat)
    requires chunk.Bounds().Valid() && chunk.Bounds().Intersects(query)
    ensures ValidBvh(LoopedBvh(chunk.Bounds()), [chunk])
    ensures StackAfter(LoopedBvh(chunk.Bounds()), query, [1], turns) != []
  {
    hide NodeOk, StackAfter;
    var bvh := LoopedBvh(chunk.Bounds());
    LoopedRefs(chunk.Bounds());
    LoopedNodesOk(chunk);
    assert NodesOk(bvh, [chunk], 1);
    LoopGoesOn(bvh, query, [], turns);
    assert [] + [1] == [1];
  }

  lemma {:induction false} LoopedNodesOk(chunk: CollisionChunk)
    requires chunk.Bounds().Valid()
    ensures var bvh := LoopedBvh(chunk.Bounds());
      NodeOk(bvh, [chunk], bvh.nodes[0]) && NodeOk(bvh, [chunk], bvh.nodes[1])
  {
    LoopedRefs(chunk.Bounds());
    assert UnionBounds([chunk], [0]) == chunk.Bounds();
  }

  lemma {:induction false} LoopGoesOn(bvh: ChunkBoundsBvh, query: Aabb, below: seq<nat>, turns: nat)
    requires PushedAt(bvh, query, 1) == [1, 1]
    ensures StackAfter(bvh, query, below + [1], turns) != []
    decreases turns
  {
    hide PushedAt;
    if turns > 0 {
      assert (below + [1])[..|below|] == below;
      assert below + [1, 1] == below + [1] + [1];
      LoopGoesOn(bvh, query, below + [1], turns - 1);
    }
  }

  // ---------- What acceptance means for points ----------

  /** Every chunk is listed by some leaf. */
  lemma {:induction false} ListedSomewhere(bvh: ChunkBoundsBvh, k: nat, c: nat) returns (i: nat)
    requires k <= |bvh.nodes| && c in RefsUpTo(bvh, k)
    ensures i < k && IsLeafNode(bvh.nodes[i]) && c in RefsOf(bvh, bvh.nodes[i])
  {
    if c in RefsOf(bvh, bvh.nodes[k - 1]) {
      i := k - 1;
    } else {
      i := ListedSomewhere(bvh, k - 1, c);
    }
  }

  lemma {:induction false} NodesOkAt(bvh: ChunkBoundsBvh, chunks: seq<CollisionChunk>, k: nat, i: nat)
    requires k <= |bvh.nodes| && NodesOk(bvh, chunks, k) && i < k
    ensures NodeOk(bvh, chunks, bvh.nodes[i])
  {
    if i < k - 1 {
      NodesOkAt(bvh, chunks, k - 1, i);
    }
  }

  /** An accepted node has two children or a leaf range, and nothing else; its box and its children exist. */
  lemma {:induction false} NodeHasOneShape(bvh: ChunkBoundsBvh, chunks: seq<CollisionChunk>, i: nat)
    requires ValidBvh(bvh, chunks) && i < |bvh.nodes|
    ensures var node := bvh.nodes[i];
      && (exists p :: node.bounds.Has(p))
      && (node.leaf.Some? ==> node.left.None? && node.right.None?)
      && (node.leaf.None? ==>
            && node.left.Some? && node.right.Some?
            && node.left.value < |bvh.nodes| && node.right.value < |bvh.nodes|)
      && (node.leaf.Some? ==> node.leaf.value.first + node.leaf.value.count <= |bvh.leafIndices|)
  {
    NodesOkAt(bvh, chunks, |bvh.nodes|, i);
    ValidIffInhabited(bvh.nodes[i].bounds);
  }

  /** A union near a box: so is every point of its members. */
  lemma {:induction false} UnionIsNear(chunks: seq<CollisionChunk>, ids: seq<nat>, box: Aabb, c: nat, p: Vec3)
    requires InRange(chunks, ids) && c in ids && box.Contains(UnionBounds(chunks, ids), BOUNDS_EPS)
    requires chunks[c].Bounds().Has(p)
    ensures Near(box, p, 0.0001)
  {
    UnionCovers(chunks, ids);
    assert UnionBounds(chunks, ids).Has(p);
    ContainsIff(box, UnionBounds(chunks, ids), BOUNDS_EPS);
  }

  /** In an accepted hierarchy, the points of a chunk lie within 0.0001 of each leaf that lists the chunk. */
  lemma {:induction false} LeafIsNear(bvh: ChunkBoundsBvh, chunks: seq<CollisionChunk>, i: nat, c: nat, p: Vec3)
    requires ValidBvh(bvh, chunks) && i < |bvh.nodes| && c in RefsOf(bvh, bvh.nodes[i])
    ensures c < |chunks| && (chunks[c].Bounds().Has(p) ==> Near(bvh.nodes[i].bounds, p, 0.0001))
  {
    NodesOkAt(bvh, chunks, |bvh.nodes|, i);
    if chunks[c].Bounds().Has(p) {
      UnionIsNear(chunks, RefsOf(bvh, bvh.nodes[i]), bvh.nodes[i].bounds, c, p);
    }
  }

  /** The points of a node lie within 0.0001 of the branch above it. */
  lemma {:induction false} BranchIsNear(bvh: ChunkBoundsBvh, chunks: seq<CollisionChunk>, i: nat, child: nat, p: Vec3)
    requires ValidBvh(bvh, chunks) && i < |bvh.nodes| && bvh.nodes[i].leaf.None?
    requires bvh.nodes[i].left == Some(child) || bvh.nodes[i].right == Some(child)
    ensures child < |bvh.nodes| && (bvh.nodes[child].bounds.Has(p) ==> Near(bvh.nodes[i].bounds, p, 0.0001))
  {
    NodesOkAt(bvh, chunks, |bvh.nodes|, i);
    var node := bvh.nodes[i];
    var below := bvh.nodes[node.left.value].bounds.Union(bvh.nodes[node.right.value].bounds);
    if bvh.nodes[child].bounds.Has(p) {
      assert below.Has(p);
      ContainsIff(node.bounds, below, BOUNDS_EPS);
    }
  }

  /** In an accepted hierarchy every chunk has one leaf, within 0.0001 of all its points. */
  lemma {:induction false} EveryChunkHasALeaf(bvh: ChunkBoundsBvh, chunks: seq<CollisionChunk>, c: nat)
    returns (i: nat)
    requires ValidBvh(bvh, chunks) && c < |chunks|
    ensures i < |bvh.nodes| && IsLeafNode(bvh.nodes[i]) && c in RefsOf(bvh, bvh.nodes[i])
    ensures forall p: Vec3 :: chunks[c].Bounds().Has(p) ==> Near(bvh.nodes[i].bounds, p, 0.0001)
  {
    i := ListedSomewhere(bvh, |bvh.nodes|, c);
    forall p: Vec3 | chunks[c].Bounds().Has(p)
      ensures Near(bvh.nodes[i].bounds, p, 0.0001)
    {
      LeafIsNear(bvh, chunks, i, c, p);
    }
  }

  // ---------- The whole world ----------

  predicate Blank(s: string) { Text.Trim(s) == [] }

  ghost predicate ChunkOk(chunk: CollisionChunk) {
    !Blank(chunk.chunkId) && chunk.Bounds().Valid() && !Blank(chunk.payloadRef)
  }

  ghost predicate WorldOk(world: CollisionWorld) {
    && world.version == COLLISION_WORLD_VERSION
    && world.mapToWorldScale > 0.0
    && world.rootBounds.Valid()
    && ChunksOk(world.chunks, |world.chunks|)
    && (world.chunks != [] ==> world.rootBounds.Contains(UnionOfChunks(world.chunks), BOUNDS_EPS))
    && ValidBvh(world.chunkBoundsBvh, world.chunks)
  }

  function UnionOfChunks(chunks: seq<CollisionChunk>): Aabb
    requires chunks != []
  {
    UnionBounds(chunks, Indices(|chunks|))
  }

  function ChunkErrors(chunk: CollisionChunk, i: nat): (errors: seq<ValidationError>)
    ensures errors == [] <==> ChunkOk(chunk)
  {
    (if Blank(chunk.chunkId) then [EmptyChunkId(i)] else [])
    + (if !chunk.Bounds().Valid() then [InvalidChunkBounds(i)] else [])
    + (if Blank(chunk.payloadRef) then [EmptyPayloadRef(i)] else [])
  }

  function ChunkWarnings(chunk: CollisionChunk, i: nat, config: ValidationConfig): seq<ValidationWarning> {
    if chunk.triangleCount == 0 then
      [NoTriangles(i)]
    else if chunk.triangleCount > config.maxTrianglesPerChunk then
      [TooManyTriangles(i)]
    else
      []
  }

  /** The warnings about the first `k` chunks, in order. */
  function ChunkWarningsUpTo(chunks: seq<CollisionChunk>, config: ValidationConfig, k: nat): seq<ValidationWarning>
    requires k <= |chunks|
  {
    if k == 0 then [] else ChunkWarningsUpTo(chunks, config, k - 1) + ChunkWarnings(chunks[k - 1], k - 1, config)
  }

  lemma {:induction false} WarningsStep(
      chunks: seq<CollisionChunk>, config: ValidationConfig, k: nat, before: seq<ValidationWarning>)
    requires k < |chunks| && before == ChunkWarningsUpTo(chunks, config, k)
    ensures ChunkWarningsUpTo(chunks, config, k + 1) == before + ChunkWarnings(chunks[k], k, config)
  {
  }

  lemma {:induction false} ChunkWarningsMean(chunks: seq<CollisionChunk>, config: ValidationConfig, k: nat, i: nat)
    requires k <= |chunks|
    ensures var warnings := ChunkWarningsUpTo(chunks, config, k);
      && (NoTriangles(i) in warnings <==> i < k && chunks[i].triangleCount == 0)
      && (TooManyTriangles(i) in warnings <==>
            i < k && chunks[i].triangleCount > 0 && chunks[i].triangleCount > config.maxTrianglesPerChunk)
      && EmptyWorld !in warnings && TooManyChunks !in warnings && RootDiffersFromUnion !in warnings
  {
    if k > 0 {
      ChunkWarningsMean(chunks, config, k - 1, i);
    }
  }

  /** Every warning of a world, in the order given. */
  function Warnings(world: CollisionWorld, config: ValidationConfig): seq<ValidationWarning> {
    (if world.chunks == [] then [EmptyWorld] else [])
    + (if |world.chunks| > config.maxChunks then [TooManyChunks] else [])
    + ChunkWarningsUpTo(world.chunks, config, |world.chunks|)
    + (if world.chunks != [] && !world.rootBounds.NearEq(UnionOfChunks(world.chunks), BOUNDS_EPS)
       then [RootDiffersFromUnion] else [])
  }

  /** A warning is given exactly when there is reason for it. */
  lemma {:induction false} WarningsMean(world: CollisionWorld, config: ValidationConfig, i: nat)
    ensures var warnings := Warnings(world, config); var chunks := world.chunks;
      && (EmptyWorld in warnings <==> chunks == [])
      && (TooManyChunks in warnings <==> |chunks| > config.maxChunks)
      && (NoTriangles(i) in warnings <==> i < |chunks| && chunks[i].triangleCount == 0)
      && (TooManyTriangles(i) in warnings <==>
            i < |chunks| && chunks[i].triangleCount > 0 && chunks[i].triangleCount > config.maxTrianglesPerChunk)
      && (RootDiffersFromUnion in warnings <==>
            chunks != [] && !world.rootBounds.NearEq(UnionOfChunks(chunks), BOUNDS_EPS))
  {
    ChunkWarningsMean(world.chunks, config, |world.chunks|, i);
  }

  /** What a world without errors promises: its header, its names, and where the points of its chunks lie. */
  lemma {:induction false} AcceptedWorldMeans(world: CollisionWorld, c: nat, p: Vec3)
    requires WorldOk(world)
    ensures world.version == 1 && world.mapToWorldScale > 0.0 && exists q :: world.rootBounds.Has(q)
    ensures c < |world.chunks| ==>
      && (exists j :: 0 <= j < |world.chunks[c].chunkId| && !Text.IsWhitespace(world.chunks[c].chunkId[j]))
      && (exists j :: 0 <= j < |world.chunks[c].payloadRef| && !Text.IsWhitespace(world.chunks[c].payloadRef[j]))
      && (exists q :: world.chunks[c].Bounds().Has(q))
      && (world.chunks[c].Bounds().Has(p) ==> Near(world.rootBounds, p, 0.0001))
  {
    ValidIffInhabited(world.rootBounds);
    if c < |world.chunks| {
      ChunksOkAt(world.chunks, |world.chunks|, c);
      ValidIffInhabited(world.chunks[c].Bounds());
      Text.TrimEmptyIffBlank(world.chunks[c].chunkId);
      Text.TrimEmptyIffBlank(world.chunks[c].payloadRef);
      if world.chunks[c].Bounds().Has(p) {
        var ids := Indices(|world.chunks|);
        assert ids[c] == c;
        UnionIsNear(world.chunks, ids, world.rootBounds, c, p);
      }
    }
  }

  lemma {:induction false} ChunksOkAt(chunks: seq<CollisionChunk>, k: nat, i: nat)
    requires k <= |chunks| && ChunksOk(chunks, k) && i < k
    ensures ChunkOk(chunks[i])
  {
    if i < k - 1 {
      ChunksOkAt(chunks, k - 1, i);
    }
  }

  /** Errors in one pass over the chunks, with the running union of their boxes. */
  method ValidateChunks(chunks: seq<CollisionChunk>, config: ValidationConfig)
    returns (errors: seq<ValidationError>, warnings: seq<ValidationWarning>, union: Option<Aabb>)
    ensures errors == [] <==> ChunksOk(chunks, |chunks|)
    ensures union == if chunks == [] then None else Some(UnionOfChunks(chunks))
    ensures warnings == ChunkWarningsUpTo(chunks, config, |chunks|)
  {
    errors, warnings, union := [], [], None;
    for i := 0 to |chunks|
      invariant errors == [] <==> ChunksOk(chunks, i)
      invariant union == UnionUpTo(chunks, i)
      invariant warnings == ChunkWarningsUpTo(chunks, config, i)
    {
      var found := ChunkErrors(chunks[i], i);
      StillSilent(errors, found, ChunksOk(chunks, i), ChunkOk(chunks[i]), ChunksOk(chunks, i + 1));
      errors := errors + found;
      WarningsStep(chunks, config, i, warnings);
      warnings := warnings + ChunkWarnings(chunks[i], i, config);
      union := Extended(chunks, i, union);
    }
  }

  /** The union of the first boxes, extended by the next one. */
  method Extended(chunks: seq<CollisionChunk>, i: nat, union: Option<Aabb>) returns (extended: Option<Aabb>)
    requires i < |chunks| && union == UnionUpTo(chunks, i)
    ensures extended == UnionUpTo(chunks, i + 1)
  {
    IndicesStep(chunks, i);
    var box := chunks[i].Bounds();
    extended := Some(if union.Some? then union.value.Union(box) else box);
  }

  function UnionUpTo(chunks: seq<CollisionChunk>, k: nat): Option<Aabb>
    requires k <= |chunks|
  {
    if k == 0 then None else Some(UnionBounds(chunks, Indices(k)))
  }

  /** The first `k` chunks are sound. */
  ghost predicate ChunksOk(chunks: seq<CollisionChunk>, k: nat)
    requires k <= |chunks|
  {
    k == 0 || (ChunksOk(chunks, k - 1) && ChunkOk(chunks[k - 1]))
  }

  lemma {:induction false} AllChunksOk(chunks: seq<CollisionChunk>, k: nat)
    requires k <= |chunks|
    requires forall i {:trigger ChunkOk(chunks[i])} :: 0 <= i < k ==> ChunkOk(chunks[i])
    ensures ChunksOk(chunks, k)
  {
    if k > 0 {
      AllChunksOk(chunks, k - 1);
      assert ChunkOk(chunks[k - 1]);
    }
  }

  lemma {:induction false} StillSilent(
      errors: seq<ValidationError>, more: seq<ValidationError>, before: bool, here: bool, after: bool)
    requires errors == [] <==> before
    requires more == [] <==> here
    requires after <==> before && here
    ensures errors + more == [] <==> after
  {
  }

  lemma {:induction false} IndicesStep(chunks: seq<CollisionChunk>, i: nat)
    requires i < |chunks|
    ensures InRange(chunks, Indices(i)) && InRange(chunks, Indices(i + 1))
    ensures UnionBounds(chunks, Indices(i + 1))
         == if i == 0 then chunks[i].Bounds() else UnionBounds(chunks, Indices(i)).Union(chunks[i].Bounds())
  {
    var ids := Indices(i + 1);
    assert ids[..i] == Indices(i) && ids[..i + 1] == ids;
    UnionStep(chunks, ids, i);
  }

  method Validate(world: CollisionWorld, config: ValidationConfig)
    returns (errors: seq<ValidationError>, warnings: seq<ValidationWarning>)
    ensures errors == [] <==> WorldOk(world)
    ensures errors == [] ==> forall c, p: Vec3 ::
      0 <= c < |world.chunks| && world.chunks[c].Bounds().Has(p) ==> Near(world.rootBounds, p, 0.0001)
    ensures warnings == Warnings(world, config)
  {
    errors, warnings := [], [];
    if world.version != COLLISION_WORLD_VERSION {
      errors := errors + [UnsupportedVersion];
    }
    if world.mapToWorldScale <= 0.0 {
      errors := errors + [BadScale];
    }
    if world.chunks == [] {
      warnings := warnings + [EmptyWorld];
    }
    if |world.chunks| > config.maxChunks {
      warnings := warnings + [TooManyChunks];
    }
    if !world.rootBounds.Valid() {
      errors := errors + [InvalidRootBounds];
    }
    var chunkErrors, chunkWarnings, union := ValidateChunks(world.chunks, config);
    errors, warnings := errors + chunkErrors, warnings + chunkWarnings;
    if union.Some? {
      if !world.rootBounds.Contains(union.value, BOUNDS_EPS) {
        errors := errors + [RootMissesChunks];
      }
      if !world.rootBounds.NearEq(union.value, BOUNDS_EPS) {
        warnings := warnings + [RootDiffersFromUnion];
      }
    }
    var bvhErrors := ValidateChunkBoundsBvh(world.chunkBoundsBvh, world.chunks);
    errors := errors + bvhErrors;
    if errors == [] {
      RootIsNear(world);
    }
  }

  lemma {:induction false} RootIsNear(world: CollisionWorld)
    requires WorldOk(world)
    ensures forall c, p: Vec3 ::
      0 <= c < |world.chunks| && world.chunks[c].Bounds().Has(p) ==> Near(world.rootBounds, p, 0.0001)
  {
    forall c, p: Vec3 | 0 <= c < |world.chunks| && world.chunks[c].Bounds().Has(p)
      ensures Near(world.rootBounds, p, 0.0001)
    {
      AcceptedWorldMeans(world, c, p);
    }
  }
}
