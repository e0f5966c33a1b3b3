/** Partition of a triangle soup into chunks by a recursive quadtree over the xz plane. */
module Quadtree {
  import opened Results
  import opened Geometry
  import opened Bvh
  import opened Words
  import opened Sequences
  import BvhValidation
  import Text

  datatype Triangle = Triangle(a: Vec3, b: Vec3, c: Vec3)

  datatype QuadtreeConfig = QuadtreeConfig(maxTrisPerLeaf: nat, minLeafSizeXy: real, maxDepth: nat)

  datatype QuadtreeBuild = QuadtreeBuild(chunks: seq<CollisionChunk>, rootBounds: Aabb)

  datatype TriangleRef = TriangleRef(bounds: Aabb, centroidX: real, centroidZ: real)

  datatype QuadtreeError = NoTriangles | BadLeafSize

  // ---------- Triangles ----------

  /** The least box over the three corners. */
  function TriangleBounds(tri: Triangle): (box: Aabb)
    ensures box.Valid() && box.Has(tri.a) && box.Has(tri.b) && box.Has(tri.c)
    ensures forall c: Aabb :: c.Has(tri.a) && c.Has(tri.b) && c.Has(tri.c) ==> c.Covers(box)
  {
    Aabb(Vec3(Min(Min(tri.a.x, tri.b.x), tri.c.x),
              Min(Min(tri.a.y, tri.b.y), tri.c.y),
              Min(Min(tri.a.z, tri.b.z), tri.c.z)),
         Vec3(Max(Max(tri.a.x, tri.b.x), tri.c.x),
              Max(Max(tri.a.y, tri.b.y), tri.c.y),
              Max(Max(tri.a.z, tri.b.z), tri.c.z)))
  }

  function BuildRef(tri: Triangle): (r: TriangleRef)
    ensures r.bounds == TriangleBounds(tri) && InCell(r, r.bounds)
  {
    TriangleRef(TriangleBounds(tri), (tri.a.x + tri.b.x + tri.c.x) / 3.0, (tri.a.z + tri.b.z + tri.c.z) / 3.0)
  }

  lemma {:induction false} CentroidIsMean(tri: Triangle)
    ensures BuildRef(tri).centroidX * 3.0 == tri.a.x + tri.b.x + tri.c.x
    ensures BuildRef(tri).centroidZ * 3.0 == tri.a.z + tri.b.z + tri.c.z
  {
  }

  function BuildRefs(triangles: seq<Triangle>): (refs: seq<TriangleRef>)
    ensures |refs| == |triangles|
    ensures forall i :: 0 <= i < |refs| ==> refs[i] == BuildRef(triangles[i])
  {
    seq(|triangles|, i requires 0 <= i < |triangles| => BuildRef(triangles[i]))
  }

  function TriBoxes(tris: seq<TriangleRef>): (boxes: seq<Aabb>)
    ensures |boxes| == |tris| && forall i :: 0 <= i < |tris| ==> boxes[i] == tris[i].bounds
  {
    seq(|tris|, i requires 0 <= i < |tris| => tris[i].bounds)
  }

  function TriUnion(tris: seq<TriangleRef>): Option<Aabb> {
    if tris == [] then None else Some(UnionFold(TriBoxes(tris)))
  }

  // ---------- Cells ----------

  function MidX(cell: Aabb): real { (cell.min.x + cell.max.x) * 0.5 }

  function MidZ(cell: Aabb): real { (cell.min.z + cell.max.z) * 0.5 }

  /** Triangles are assigned by centroid: bit 0 is east, bit 1 is north. */
  function Quadrant(tri: TriangleRef, cell: Aabb): (k: nat)
    ensures k < 4
  {
    var east, north := tri.centroidX >= MidX(cell), tri.centroidZ >= MidZ(cell);
    match (east, north)
    case (false, false) => 0
    case (true, false) => 1
    case (false, true) => 2
    case (true, true) => 3
  }

  function ChildCell(cell: Aabb, k: nat): Aabb
    requires k < 4
  {
    var lo, hi, midX, midZ := cell.min, cell.max, MidX(cell), MidZ(cell);
    if k == 0 then Aabb(lo, Vec3(midX, hi.y, midZ))
    else if k == 1 then Aabb(Vec3(midX, lo.y, lo.z), Vec3(hi.x, hi.y, midZ))
    else if k == 2 then Aabb(Vec3(lo.x, lo.y, midZ), Vec3(midX, hi.y, hi.z))
    else Aabb(Vec3(midX, lo.y, midZ), hi)
  }

  /** The centroid lies over the cell. */
  predicate InCell(tri: TriangleRef, cell: Aabb) {
    cell.min.x <= tri.centroidX <= cell.max.x && cell.min.z <= tri.centroidZ <= cell.max.z
  }

  function Bucket(tris: seq<TriangleRef>, cell: Aabb, k: nat): seq<TriangleRef> {
    if tris == [] then
      []
    else
      var last := tris[|tris| - 1];
      Bucket(tris[..|tris| - 1], cell, k) + (if Quadrant(last, cell) == k then [last] else [])
  }

  /** Why a node is not split further. */
  predicate Stops(count: nat, depth: nat, cell: Aabb, config: QuadtreeConfig) {
    || count <= config.maxTrisPerLeaf
    || depth >= config.maxDepth
    || cell.max.x - cell.min.x <= config.minLeafSizeXy
    || cell.max.z - cell.min.z <= config.minLeafSizeXy
  }

  // ---------- What a split produces ----------

  /** The triangles of one chunk and the quadrants that lead to its cell. */
  datatype Group = Group(path: seq<nat>, tris: seq<TriangleRef>)

  function CellAt(cell: Aabb, path: seq<nat>): Aabb
    requires forall i :: 0 <= i < |path| ==> path[i] < 4
    decreases |path|
  {
    if path == [] then cell else CellAt(ChildCell(cell, path[0]), path[1..])
  }

  /** The triangles whose centroids take `path`, in input order. */
  function Descend(tris: seq<TriangleRef>, cell: Aabb, path: seq<nat>): seq<TriangleRef>
    requires forall i :: 0 <= i < |path| ==> path[i] < 4
    decreases |path|
  {
    if path == [] then tris else Descend(Bucket(tris, cell, path[0]), ChildCell(cell, path[0]), path[1..])
  }

  /** Splitting goes on along the whole path and stops exactly at its end, with these triangles. */
  ghost predicate Reached(
      tris: seq<TriangleRef>, cell: Aabb, depth: nat, config: QuadtreeConfig, path: seq<nat>, found: seq<TriangleRef>)
    decreases |path|
  {
    if path == [] then
      tris == found && found != [] && Stops(|tris|, depth, cell, config)
    else
      && !Stops(|tris|, depth, cell, config)
      && path[0] < 4
      && Reached(Bucket(tris, cell, path[0]), ChildCell(cell, path[0]), depth + 1, config, path[1..], found)
  }

  ghost predicate AllReached(
      tris: seq<TriangleRef>, cell: Aabb, depth: nat, config: QuadtreeConfig, groups: seq<Group>)
  {
    forall i :: 0 <= i < |groups| ==> Reached(tris, cell, depth, config, groups[i].path, groups[i].tris)
  }

  function Members(groups: seq<Group>): seq<TriangleRef> {
    if groups == [] then [] else Members(groups[..|groups| - 1]) + groups[|groups| - 1].tris
  }

  lemma {:induction false} MembersConcat(a: seq<Group>, b: seq<Group>)
    ensures Members(a + b) == Members(a) + Members(b)
  {
    if b == [] {
      assert a + b == a;
    } else {
      var init, last := b[..|b| - 1], b[|b| - 1];
      MembersConcat(a, init);
      assert (a + b)[..|a + b| - 1] == a + init;
      Appended(Members(a), Members(init), last.tris);
    }
  }

  function Prefixed(k: nat, groups: seq<Group>): (r: seq<Group>)
    ensures |r| == |groups|
    ensures forall i :: 0 <= i < |groups| ==> r[i] == Group([k] + groups[i].path, groups[i].tris)
  {
    seq(|groups|, i requires 0 <= i < |groups| => Group([k] + groups[i].path, groups[i].tris))
  }

  lemma {:induction false} MembersPrefixed(k: nat, groups: seq<Group>)
    ensures Members(Prefixed(k, groups)) == Members(groups)
  {
    if groups != [] {
      MembersPrefixed(k, groups[..|groups| - 1]);
      assert Prefixed(k, groups)[..|groups| - 1] == Prefixed(k, groups[..|groups| - 1]);
    }
  }

  lemma {:induction false} ReachedPrefixed(
      tris: seq<TriangleRef>, cell: Aabb, depth: nat, config: QuadtreeConfig, k: nat, groups: seq<Group>)
    requires k < 4 && !Stops(|tris|, depth, cell, config)
    requires AllReached(Bucket(tris, cell, k), ChildCell(cell, k), depth + 1, config, groups)
    ensures AllReached(tris, cell, depth, config, Prefixed(k, groups))
  {
    forall i | 0 <= i < |groups|
      ensures Reached(tris, cell, depth, config, [k] + groups[i].path, groups[i].tris)
    {
      assert ([k] + groups[i].path)[1..] == groups[i].path;
    }
  }

  /** A reached group is the whole of what descends to its cell, and it met a stop condition there first. */
  lemma {:induction false} ReachedMeans(
      tris: seq<TriangleRef>, cell: Aabb, depth: nat, config: QuadtreeConfig, path: seq<nat>, found: seq<TriangleRef>)
    requires Reached(tris, cell, depth, config, path, found)
    ensures found != [] && forall i :: 0 <= i < |path| ==> path[i] < 4
    ensures found == Descend(tris, cell, path)
    ensures Stops(|found|, depth + |path|, CellAt(cell, path), config)
    ensures |path| == 0 || depth + |path| <= config.maxDepth
    decreases |path|
  {
    if path != [] {
      ReachedMeans(Bucket(tris, cell, path[0]), ChildCell(cell, path[0]), depth + 1, config, path[1..], found);
      assert forall i :: 0 < i < |path| ==> path[i] == path[1..][i - 1];
    }
  }

  ghost predicate AllInCell(tris: seq<TriangleRef>, cell: Aabb) {
    forall i :: 0 <= i < |tris| ==> InCell(tris[i], cell)
  }

  /** Members of a group have their centroids over the group's cell. */
  lemma {:induction false} CentroidsInCell(tris: seq<TriangleRef>, cell: Aabb, path: seq<nat>)
    requires forall i :: 0 <= i < |path| ==> path[i] < 4
    requires AllInCell(tris, cell)
    ensures AllInCell(Descend(tris, cell, path), CellAt(cell, path))
    decreases |path|
  {
    if path != [] {
      BucketInChild(tris, cell, path[0]);
      CentroidsInCell(Bucket(tris, cell, path[0]), ChildCell(cell, path[0]), path[1..]);
    }
  }

  lemma {:induction false} ChildHolds(tri: TriangleRef, cell: Aabb)
    requires InCell(tri, cell)
    ensures InCell(tri, ChildCell(cell, Quadrant(tri, cell)))
  {
  }

  lemma {:induction false} BucketInChild(tris: seq<TriangleRef>, cell: Aabb, k: nat)
    requires k < 4 && AllInCell(tris, cell)
    ensures AllInCell(Bucket(tris, cell, k), ChildCell(cell, k))
  {
    if tris != [] {
      BucketInChild(tris[..|tris| - 1], cell, k);
      ChildHolds(tris[|tris| - 1], cell);
    }
  }

  /** The first `k` buckets one after the other. */
  function BucketsUpTo(tris: seq<TriangleRef>, cell: Aabb, k: nat): seq<TriangleRef> {
    if k == 0 then [] else BucketsUpTo(tris, cell, k - 1) + Bucket(tris, cell, k - 1)
  }

  /** Bucketing loses, repeats and invents nothing. */
  lemma {:induction false} BucketsPartition(tris: seq<TriangleRef>, cell: Aabb)
    ensures multiset(BucketsUpTo(tris, cell, 4)) == multiset(tris)
  {
    if tris == [] {
      NoBuckets(cell, 4);
    } else {
      var init, last := tris[..|tris| - 1], tris[|tris| - 1];
      BucketsPartition(init, cell);
      OneMoreTriangle(init, last, cell, Quadrant(last, cell), 4);
      assert tris == init + [last];
    }
  }

  lemma {:induction false} NoBuckets(cell: Aabb, k: nat)
    ensures BucketsUpTo([], cell, k) == []
  {
    if k > 0 { NoBuckets(cell, k - 1); }
  }

  function Once(tri: TriangleRef, here: bool): multiset<TriangleRef> {
    if here then multiset{tri} else multiset{}
  }

  lemma {:induction false} OneMoreTriangle(init: seq<TriangleRef>, last: TriangleRef, cell: Aabb, quadrant: nat, k: nat)
    requires quadrant == Quadrant(last, cell)
    ensures multiset(BucketsUpTo(init + [last], cell, k))
         == multiset(BucketsUpTo(init, cell, k)) + Once(last, quadrant < k)
  {
    if k > 0 {
      OneMoreTriangle(init, last, cell, quadrant, k - 1);
      BucketOfOneMore(init, last, cell, k - 1);
      JoinBuckets(BucketsUpTo(init, cell, k - 1), Bucket(init, cell, k - 1), BucketsUpTo(init + [last], cell, k - 1),
        Bucket(init + [last], cell, k - 1), BucketsUpTo(init, cell, k), BucketsUpTo(init + [last], cell, k), last,
        quadrant < k - 1, quadrant == k - 1, quadrant < k);
    }
  }

  lemma {:induction false} BucketOfOneMore(init: seq<TriangleRef>, last: TriangleRef, cell: Aabb, k: nat)
    ensures Bucket(init + [last], cell, k) == Bucket(init, cell, k) + (if Quadrant(last, cell) == k then [last] else [])
  {
    assert (init + [last])[..|init|] == init;
  }

  lemma {:induction false} JoinBuckets(a: seq<TriangleRef>, b: seq<TriangleRef>, moreA: seq<TriangleRef>,
      moreB: seq<TriangleRef>, both: seq<TriangleRef>, moreBoth: seq<TriangleRef>, last: TriangleRef,
      inA: bool, inB: bool, inBoth: bool)
    requires multiset(moreA) == multiset(a) + Once(last, inA)
    requires moreB == b + (if inB then [last] else []) && !(inA && inB) && inBoth == (inA || inB)
    requires both == a + b && moreBoth == moreA + moreB
    ensures multiset(moreBoth) == multiset(both) + Once(last, inBoth)
  {
    if inB {
      assert multiset(moreB) == multiset(b) + multiset{last};
    } else {
      Grown(b);
    }
  }

  // ---------- Chunks ----------

  function ChunkId(mapLabel: string, index: nat): string {
    mapLabel + "/chunk_" + Text.Padded4(index)
  }

  function ChunkOf(mapLabel: string, index: nat, tris: seq<TriangleRef>): CollisionChunk {
    var bounds := if TriUnion(tris).Some? then TriUnion(tris).value else ORIGIN_BOX;
    CollisionChunk(ChunkId(mapLabel, index), bounds.min, bounds.max, "inline:" + ChunkId(mapLabel, index),
                   TryU32(|tris|), None)
  }

  /** Different chunks of a map have different names, which begin with the map's label. */
  lemma {:induction false} ChunkIdsDiffer(mapLabel: string, i: nat, j: nat)
    ensures ChunkId(mapLabel, i) == ChunkId(mapLabel, j) <==> i == j
    ensures mapLabel + "/chunk_" <= ChunkId(mapLabel, i)
    ensures Text.DigitsValue(Text.Padded4(i)) == i && ChunkId(mapLabel, i)[|mapLabel + "/chunk_"|..] == Text.Padded4(i)
  {
    var head := mapLabel + "/chunk_";
    Text.PaddedValue(i);
    Text.PaddedValue(j);
    assert ChunkId(mapLabel, i)[|head|..] == Text.Padded4(i) && ChunkId(mapLabel, j)[|head|..] == Text.Padded4(j);
  }

  /** What a chunk records besides its box. */
  lemma {:induction false} ChunkRecords(mapLabel: string, index: nat, tris: seq<TriangleRef>)
    ensures var chunk := ChunkOf(mapLabel, index, tris);
      && chunk.payloadRef == "inline:" + chunk.chunkId && chunk.chunkId == ChunkId(mapLabel, index)
      && chunk.partitionHint.None?
      && (|tris| < 0x1_0000_0000 ==> chunk.triangleCount == |tris|)
      && (|tris| >= 0x1_0000_0000 ==> chunk.triangleCount == 0xFFFF_FFFF)
  {
  }

  /** The chunks emitted for `groups`, numbered from `start`. */
  function Emitted(mapLabel: string, start: nat, groups: seq<Group>): (chunks: seq<CollisionChunk>)
    ensures |chunks| == |groups|
  {
    seq(|groups|, i requires 0 <= i < |groups| => ChunkOf(mapLabel, start + i, groups[i].tris))
  }

  lemma {:induction false} EmittedConcat(mapLabel: string, start: nat, a: seq<Group>, b: seq<Group>)
    ensures Emitted(mapLabel, start, a + b) == Emitted(mapLabel, start, a) + Emitted(mapLabel, start + |a|, b)
  {
  }

  method FillBuckets(tris: seq<TriangleRef>, cell: Aabb) returns (buckets: seq<seq<TriangleRef>>)
    ensures |buckets| == 4 && forall k :: 0 <= k < 4 ==> buckets[k] == Bucket(tris, cell, k)
  {
    buckets := [[], [], [], []];
    for i := 0 to |tris|
      invariant |buckets| == 4 && forall k :: 0 <= k < 4 ==> buckets[k] == Bucket(tris[..i], cell, k)
    {
      assert tris[..i + 1][..i] == tris[..i];
      var index := Quadrant(tris[i], cell);
      buckets := buckets[index := buckets[index] + [tris[i]]];
    }
    assert tris[..|tris|] == tris;
  }

  class ChunkEmitter {
    var chunkIndex: nat
    var chunks: seq<CollisionChunk>

    constructor ()
      ensures chunkIndex == 0 && chunks == []
    {
      chunkIndex, chunks := 0, [];
    }

    method EmitChunk(tris: seq<TriangleRef>, mapLabel: string)
      modifies this
      ensures chunks == old(chunks) + [ChunkOf(mapLabel, old(chunkIndex), tris)]
      ensures chunkIndex == old(chunkIndex) + 1
    {
      var union := TriUnion(tris);
      var bounds := if union.Some? then union.value else ORIGIN_BOX;
      var index := chunkIndex;
      chunkIndex := chunkIndex + 1;
      chunks := chunks + [CollisionChunk(
        ChunkId(mapLabel, index), bounds.min, bounds.max, "inline:" + ChunkId(mapLabel, index), TryU32(|tris|), None)];
    }

    /** Appends one chunk per group; the groups partition the triangles and each stopped where it had to. */
    method SplitNode(tris: seq<TriangleRef>, cell: Aabb, depth: nat, config: QuadtreeConfig, mapLabel: string)
      returns (ghost groups: seq<Group>)
      modifies this
      ensures AllReached(tris, cell, depth, config, groups)
      ensures multiset(Members(groups)) == multiset(tris)
      ensures chunks == old(chunks) + Emitted(mapLabel, old(chunkIndex), groups)
      ensures chunkIndex == old(chunkIndex) + |groups|
      decreases config.maxDepth - depth, 1
    {
      groups := [];
      if tris == [] {
        return;
      }
      if Stops(|tris|, depth, cell, config) {
        EmitChunk(tris, mapLabel);
        groups := [Group([], tris)];
        assert Members(groups) == Members([]) + tris;
        return;
      }
      var buckets := FillBuckets(tris, cell);
      groups := SplitBuckets(tris, buckets, cell, depth, config, mapLabel);
      BucketsPartition(tris, cell);
    }

    /** The loop over the four buckets of a node that does not stop. */
    method SplitBuckets(
        ghost tris: seq<TriangleRef>, buckets: seq<seq<TriangleRef>>, cell: Aabb, depth: nat,
        config: QuadtreeConfig, mapLabel: string)
      returns (ghost groups: seq<Group>)
      requires !Stops(|tris|, depth, cell, config)
      requires |buckets| == 4 && forall k :: 0 <= k < 4 ==> buckets[k] == Bucket(tris, cell, k)
      modifies this
      ensures AllReached(tris, cell, depth, config, groups)
      ensures multiset(Members(groups)) == multiset(BucketsUpTo(tris, cell, 4))
      ensures chunks == old(chunks) + Emitted(mapLabel, old(chunkIndex), groups)
      ensures chunkIndex == old(chunkIndex) + |groups|
      decreases config.maxDepth - depth, 0
    {
      groups := [];
      for k := 0 to 4
        invariant AllReached(tris, cell, depth, config, groups)
        invariant multiset(Members(groups)) == multiset(BucketsUpTo(tris, cell, k))
        invariant chunks == old(chunks) + Emitted(mapLabel, old(chunkIndex), groups)
        invariant chunkIndex == old(chunkIndex) + |groups|
      {
        ghost var more, sofar, at := [], chunks, chunkIndex;
        if buckets[k] != [] {
          more := SplitNode(buckets[k], ChildCell(cell, k), depth + 1, config, mapLabel);
        } else {
          assert Emitted(mapLabel, at, more) == [];
          Grown(sofar);
        }
        JoinChild(tris, cell, depth, config, k, groups, more);
        JoinChunks(mapLabel, old(chunkIndex), old(chunks), groups, Prefixed(k, more), more, at, sofar, chunks);
        groups := groups + Prefixed(k, more);
      }
    }
  }

  /** What one child adds to the groups of its parent. */
  lemma {:induction false} JoinChild(
      tris: seq<TriangleRef>, cell: Aabb, depth: nat, config: QuadtreeConfig, k: nat,
      groups: seq<Group>, more: seq<Group>)
    requires k < 4 && !Stops(|tris|, depth, cell, config)
    requires AllReached(tris, cell, depth, config, groups)
    requires AllReached(Bucket(tris, cell, k), ChildCell(cell, k), depth + 1, config, more)
    requires multiset(Members(groups)) == multiset(BucketsUpTo(tris, cell, k))
    requires multiset(Members(more)) == multiset(Bucket(tris, cell, k))
    ensures AllReached(tris, cell, depth, config, groups + Prefixed(k, more))
    ensures multiset(Members(groups + Prefixed(k, more))) == multiset(BucketsUpTo(tris, cell, k + 1))
  {
    ReachedPrefixed(tris, cell, depth, config, k, more);
    MembersPrefixed(k, more);
    MembersConcat(groups, Prefixed(k, more));
  }

  /** What it adds to the chunks; the path prefix of a group does not matter to its chunk. */
  lemma {:induction false} JoinChunks(
      mapLabel: string, start: nat, before: seq<CollisionChunk>, groups: seq<Group>, prefixed: seq<Group>,
      more: seq<Group>, at: nat, sofar: seq<CollisionChunk>, after: seq<CollisionChunk>)
    requires sofar == before + Emitted(mapLabel, start, groups) && at == start + |groups|
    requires after == sofar + Emitted(mapLabel, at, more)
    requires |prefixed| == |more| && forall i :: 0 <= i < |more| ==> prefixed[i].tris == more[i].tris
    ensures after == before + Emitted(mapLabel, start, groups + prefixed)
  {
    EmittedConcat(mapLabel, start, groups, prefixed);
    assert Emitted(mapLabel, at, prefixed) == Emitted(mapLabel, at, more);
    Appended(before, Emitted(mapLabel, start, groups), Emitted(mapLabel, at, more));
  }

  // ---------- The whole build ----------

  /** `groups` explains the build: a partition of the triangles, one chunk per part, numbered from 0. */
  ghost predicate Explains(
      groups: seq<Group>, build: QuadtreeBuild, triangles: seq<Triangle>, config: QuadtreeConfig, mapLabel: string)
  {
    && triangles != []
    && build.rootBounds == UnionFold(TriBoxes(BuildRefs(triangles)))
    && AllReached(BuildRefs(triangles), build.rootBounds, 0, config, groups)
    && multiset(Members(groups)) == multiset(BuildRefs(triangles))
    && build.chunks == Emitted(mapLabel, 0, groups)
  }

  method BuildQuadtreeChunks(triangles: seq<Triangle>, config: QuadtreeConfig, mapLabel: string)
    returns (r: Result<QuadtreeBuild, QuadtreeError>, ghost groups: seq<Group>)
    ensures triangles == [] ==> r == Err(NoTriangles)
    ensures triangles != [] && config.minLeafSizeXy <= 0.0 ==> r == Err(BadLeafSize)
    ensures triangles != [] && config.minLeafSizeXy > 0.0 ==>
      r.Ok? && Explains(groups, r.value, triangles, config, mapLabel)
  {
    groups := [];
    if triangles == [] {
      return Err(NoTriangles), [];
    }
    if config.minLeafSizeXy <= 0.0 {
      return Err(BadLeafSize), [];
    }
    var refs := BuildRefs(triangles);
    var rootBounds := TriUnion(refs).value;
    var emitter := new ChunkEmitter();
    groups := emitter.SplitNode(refs, rootBounds, 0, config, mapLabel);
    assert [] + Emitted(mapLabel, 0, groups) == Emitted(mapLabel, 0, groups);
    r := Ok(QuadtreeBuild(emitter.chunks, rootBounds));
  }

  lemma {:induction false} GroupIsNotEmpty(
      tris: seq<TriangleRef>, cell: Aabb, depth: nat, config: QuadtreeConfig, groups: seq<Group>)
    requires AllReached(tris, cell, depth, config, groups)
    ensures forall i :: 0 <= i < |groups| ==> groups[i].tris != []
  {
    forall i | 0 <= i < |groups| ensures groups[i].tris != [] {
      ReachedMeans(tris, cell, depth, config, groups[i].path, groups[i].tris);
    }
  }

  /** A chunk's box is the exact union of the boxes of its triangles, and is valid when theirs are. */
  lemma {:induction false} ChunkBox(mapLabel: string, index: nat, tris: seq<TriangleRef>)
    requires tris != [] && forall i :: 0 <= i < |tris| ==> tris[i].bounds.Valid()
    ensures IsHull(ChunkOf(mapLabel, index, tris).Bounds(), TriBoxes(tris))
    ensures ChunkOf(mapLabel, index, tris).Bounds().Valid()
  {
    UnionFoldIsHull(TriBoxes(tris));
    assert ChunkOf(mapLabel, index, tris).Bounds() == UnionFold(TriBoxes(tris));
    assert ChunkOf(mapLabel, index, tris).Bounds().Covers(TriBoxes(tris)[0]);
  }

  /** Position of a member in one of the groups. */
  lemma {:induction false} MemberIsGrouped(groups: seq<Group>, tri: TriangleRef) returns (i: nat)
    requires tri in Members(groups)
    ensures i < |groups| && tri in groups[i].tris
  {
    var init, last := groups[..|groups| - 1], groups[|groups| - 1];
    if tri in last.tris {
      i := |groups| - 1;
    } else {
      i := MemberIsGrouped(init, tri);
    }
  }

  lemma {:induction false} GroupedIsMember(groups: seq<Group>, i: nat, tri: TriangleRef)
    requires i < |groups| && tri in groups[i].tris
    ensures tri in Members(groups)
  {
    if i < |groups| - 1 { GroupedIsMember(groups[..|groups| - 1], i, tri); }
  }

  /** Every triangle is a member of some chunk's group, and members are the triangles. */
  lemma {:induction false} GroupsHoldTriangles(groups: seq<Group>, triangles: seq<Triangle>)
    requires multiset(Members(groups)) == multiset(BuildRefs(triangles))
    ensures forall t :: 0 <= t < |triangles| ==> BuildRef(triangles[t]) in Members(groups)
    ensures forall i, j :: 0 <= i < |groups| && 0 <= j < |groups[i].tris| ==>
      groups[i].tris[j] in BuildRefs(triangles)
  {
    var refs := BuildRefs(triangles);
    forall t | 0 <= t < |triangles| ensures BuildRef(triangles[t]) in Members(groups) {
      assert refs[t] in multiset(refs);
    }
    forall i, j | 0 <= i < |groups| && 0 <= j < |groups[i].tris| ensures groups[i].tris[j] in refs {
      GroupedIsMember(groups, i, groups[i].tris[j]);
      assert groups[i].tris[j] in multiset(Members(groups));
    }
  }

  lemma {:induction false} RefsAreValid(triangles: seq<Triangle>, tri: TriangleRef)
    requires tri in BuildRefs(triangles)
    ensures tri.bounds.Valid()
  {
    var t :| 0 <= t < |triangles| && BuildRefs(triangles)[t] == tri;
  }

  /** Every chunk's box is valid and is the exact union of the boxes of its triangles. */
  lemma {:induction false} ChunkBoxesAreHulls(
      groups: seq<Group>, build: QuadtreeBuild, triangles: seq<Triangle>, config: QuadtreeConfig, mapLabel: string)
    requires Explains(groups, build, triangles, config, mapLabel)
    ensures BvhValidation.ChunkBoxesValid(build.chunks)
    ensures forall i :: 0 <= i < |groups| ==> IsHull(build.chunks[i].Bounds(), TriBoxes(groups[i].tris))
  {
    GroupIsNotEmpty(BuildRefs(triangles), build.rootBounds, 0, config, groups);
    GroupsHoldTriangles(groups, triangles);
    forall i | 0 <= i < |groups|
      ensures build.chunks[i].Bounds().Valid() && IsHull(build.chunks[i].Bounds(), TriBoxes(groups[i].tris))
    {
      forall j | 0 <= j < |groups[i].tris| ensures groups[i].tris[j].bounds.Valid() {
        RefsAreValid(triangles, groups[i].tris[j]);
      }
      ChunkBox(mapLabel, i, groups[i].tris);
    }
  }

  /** A triangle's chunk covers its box: the chunk exists even when the triangle spills over its cell. */
  lemma {:induction false} TriangleHasChunk(
      groups: seq<Group>, build: QuadtreeBuild, triangles: seq<Triangle>, config: QuadtreeConfig, mapLabel: string,
      t: nat) returns (i: nat)
    requires Explains(groups, build, triangles, config, mapLabel) && t < |triangles|
    ensures i < |groups| == |build.chunks| && BuildRef(triangles[t]) in groups[i].tris
    ensures build.chunks[i].Bounds().Covers(TriangleBounds(triangles[t]))
  {
    GroupsHoldTriangles(groups, triangles);
    i := MemberIsGrouped(groups, BuildRef(triangles[t]));
    ChunkBoxesAreHulls(groups, build, triangles, config, mapLabel);
    var j :| 0 <= j < |groups[i].tris| && groups[i].tris[j] == BuildRef(triangles[t]);
    assert build.chunks[i].Bounds().Covers(TriBoxes(groups[i].tris)[j]);
  }

  lemma {:induction false} RootCoversChunk(
      groups: seq<Group>, build: QuadtreeBuild, triangles: seq<Triangle>, config: QuadtreeConfig, mapLabel: string,
      i: nat)
    requires Explains(groups, build, triangles, config, mapLabel) && i < |build.chunks|
    ensures build.rootBounds.Covers(build.chunks[i].Bounds())
  {
    var refs, members := BuildRefs(triangles), TriBoxes(groups[i].tris);
    UnionFoldIsHull(TriBoxes(refs));
    GroupsHoldTriangles(groups, triangles);
    ChunkBoxesAreHulls(groups, build, triangles, config, mapLabel);
    forall j | 0 <= j < |members| ensures build.rootBounds.Covers(members[j]) {
      assert groups[i].tris[j] in refs;
      var t :| 0 <= t < |refs| && refs[t] == groups[i].tris[j];
      assert build.rootBounds.Covers(TriBoxes(refs)[t]);
    }
    assert CoversAll(build.rootBounds, members);
  }

  lemma {:induction false} ChunksCoverTriangles(
      groups: seq<Group>, build: QuadtreeBuild, triangles: seq<Triangle>, config: QuadtreeConfig, mapLabel: string)
    requires Explains(groups, build, triangles, config, mapLabel)
    ensures build.chunks != [] && CoversAll(BvhValidation.UnionOfChunks(build.chunks), TriBoxes(BuildRefs(triangles)))
  {
    var boxes := TriBoxes(BuildRefs(triangles));
    var first := TriangleHasChunk(groups, build, triangles, config, mapLabel, 0);
    var chunkBoxes := Boxes(build.chunks, Indices(|build.chunks|));
    UnionFoldIsHull(chunkBoxes);
    forall t | 0 <= t < |boxes| ensures UnionFold(chunkBoxes).Covers(boxes[t]) {
      var i := TriangleHasChunk(groups, build, triangles, config, mapLabel, t);
      assert UnionFold(chunkBoxes).Covers(chunkBoxes[i]);
    }
  }

  lemma {:induction false} RootCoversChunks(
      groups: seq<Group>, build: QuadtreeBuild, triangles: seq<Triangle>, config: QuadtreeConfig, mapLabel: string)
    requires Explains(groups, build, triangles, config, mapLabel)
    ensures CoversAll(build.rootBounds, Boxes(build.chunks, Indices(|build.chunks|)))
  {
    var chunkBoxes := Boxes(build.chunks, Indices(|build.chunks|));
    forall i | 0 <= i < |chunkBoxes| ensures build.rootBounds.Covers(chunkBoxes[i]) {
      RootCoversChunk(groups, build, triangles, config, mapLabel, i);
    }
  }

  /** The chunk boxes together make up the root box exactly. */
  lemma {:induction false} ChunksFillRoot(
      groups: seq<Group>, build: QuadtreeBuild, triangles: seq<Triangle>, config: QuadtreeConfig, mapLabel: string)
    requires Explains(groups, build, triangles, config, mapLabel)
    ensures build.chunks != [] && BvhValidation.UnionOfChunks(build.chunks) == build.rootBounds
  {
    ChunksCoverTriangles(groups, build, triangles, config, mapLabel);
    RootCoversChunks(groups, build, triangles, config, mapLabel);
    UnionFoldIsHull(TriBoxes(BuildRefs(triangles)));
    UnionFoldIsHull(Boxes(build.chunks, Indices(|build.chunks|)));
    var union := BvhValidation.UnionOfChunks(build.chunks);
    assert union.Covers(build.rootBounds) && build.rootBounds.Covers(union);
  }

  function TotalTriangles(chunks: seq<CollisionChunk>): nat {
    if chunks == [] then 0 else TotalTriangles(chunks[..|chunks| - 1]) + chunks[|chunks| - 1].triangleCount
  }

  lemma {:induction false} CountsAddUp(mapLabel: string, groups: seq<Group>)
    requires |Members(groups)| < U32_LIMIT
    ensures TotalTriangles(Emitted(mapLabel, 0, groups)) == |Members(groups)|
  {
    if groups != [] {
      CountsAddUp(mapLabel, groups[..|groups| - 1]);
      assert Emitted(mapLabel, 0, groups)[..|groups| - 1] == Emitted(mapLabel, 0, groups[..|groups| - 1]);
    }
  }

  /** The recorded triangle counts sum to the number of triangles. */
  lemma {:induction false} CountsSumToInput(
      groups: seq<Group>, build: QuadtreeBuild, triangles: seq<Triangle>, config: QuadtreeConfig, mapLabel: string)
    requires Explains(groups, build, triangles, config, mapLabel) && |triangles| < U32_LIMIT
    ensures TotalTriangles(build.chunks) == |triangles|
  {
    assert |Members(groups)| == |triangles| by {
      assert |multiset(Members(groups))| == |multiset(BuildRefs(triangles))|;
    }
    CountsAddUp(mapLabel, groups);
  }

  /** No chunk is empty, so there are at most as many chunks as triangles. */
  lemma {:induction false} ChunkCount(groups: seq<Group>)
    requires forall i :: 0 <= i < |groups| ==> groups[i].tris != []
    ensures |groups| <= |Members(groups)|
  {
    if groups != [] { ChunkCount(groups[..|groups| - 1]); }
  }

  // ---------- Where the cells lie ----------

  /** A centroid on the middle line belongs to the upper half. */
  lemma {:induction false} QuadrantIff(tri: TriangleRef, cell: Aabb)
    ensures Quadrant(tri, cell) % 2 == 1 <==> tri.centroidX - cell.min.x >= cell.max.x - tri.centroidX
    ensures Quadrant(tri, cell) >= 2 <==> tri.centroidZ - cell.min.z >= cell.max.z - tri.centroidZ
  {
  }

  /** A child is half as wide and half as long as its parent, and lies in the corner its number says. */
  lemma {:induction false} ChildIsQuarter(cell: Aabb, k: nat)
    requires k < 4
    ensures var child := ChildCell(cell, k);
      && child.max.x - child.min.x == (cell.max.x - cell.min.x) / 2.0
      && child.max.z - child.min.z == (cell.max.z - cell.min.z) / 2.0
      && child.min.x == cell.min.x + (if k % 2 == 1 then (cell.max.x - cell.min.x) / 2.0 else 0.0)
      && child.min.z == cell.min.z + (if k >= 2 then (cell.max.z - cell.min.z) / 2.0 else 0.0)
      && child.min.y == cell.min.y && child.max.y == cell.max.y
  {
  }

  /** The four children fill their parent and meet only along their edges. */
  lemma {:induction false} ChildrenTile(cell: Aabb, p: Vec3)
    requires cell.Valid()
    ensures cell.Has(p) <==> exists k: nat :: k < 4 && ChildCell(cell, k).Has(p)
    ensures forall j: nat, k: nat :: j < k < 4 && ChildCell(cell, j).Has(p) && ChildCell(cell, k).Has(p) ==>
      p.x - cell.min.x == cell.max.x - p.x || p.z - cell.min.z == cell.max.z - p.z
  {
    if cell.Has(p) {
      var k := (if p.x >= MidX(cell) then 1 else 0) + (if p.z >= MidZ(cell) then 2 else 0);
      assert ChildCell(cell, k).Has(p);
    }
  }

  /** Which column of the grid of `Pow2(|path|)` columns a path leads to. */
  function Column(path: seq<nat>): nat {
    if path == [] then 0 else (if path[0] % 2 == 1 then Pow2(|path| - 1) else 0) + Column(path[1..])
  }

  function Row(path: seq<nat>): nat {
    if path == [] then 0 else (if path[0] >= 2 then Pow2(|path| - 1) else 0) + Row(path[1..])
  }

  /** An interval is the one with this index of the root interval's `Pow2(steps)` equal parts. */
  ghost predicate OnGrid(lo: real, hi: real, rootLo: real, rootHi: real, steps: nat, index: nat) {
    && (hi - lo) * Pow2(steps) as real == rootHi - rootLo
    && lo == rootLo + index as real * (hi - lo)
  }

  /** The cell at the end of a path is a cell of the regular grid that halves the root once for each step. */
  lemma {:induction false} CellOfPath(root: Aabb, path: seq<nat>)
    requires forall i :: 0 <= i < |path| ==> path[i] < 4
    ensures var cell := CellAt(root, path);
      && OnGrid(cell.min.x, cell.max.x, root.min.x, root.max.x, |path|, Column(path))
      && OnGrid(cell.min.z, cell.max.z, root.min.z, root.max.z, |path|, Row(path))
      && cell.min.y == root.min.y && cell.max.y == root.max.y
    decreases |path|
  {
    if path != [] {
      var child, cell := ChildCell(root, path[0]), CellAt(root, path);
      ChildIsQuarter(root, path[0]);
      CellOfPath(child, path[1..]);
      hide OnGrid, ChildCell, Pow2;
      GridStep(cell.min.x, cell.max.x, child.min.x, child.max.x, root.min.x, root.max.x,
        |path|, path[0] % 2 == 1, Column(path[1..]));
      GridStep(cell.min.z, cell.max.z, child.min.z, child.max.z, root.min.z, root.max.z,
        |path|, path[0] >= 2, Row(path[1..]));
    }
  }

  lemma {:induction false} GridStep(lo: real, hi: real, halfLo: real, halfHi: real, rootLo: real, rootHi: real,
      steps: nat, upper: bool, index: nat)
    requires steps > 0 && OnGrid(lo, hi, halfLo, halfHi, steps - 1, index)
    requires halfHi - halfLo == (rootHi - rootLo) / 2.0
    requires halfLo == rootLo + (if upper then (rootHi - rootLo) / 2.0 else 0.0)
    ensures OnGrid(lo, hi, rootLo, rootHi, steps, (if upper then Pow2(steps - 1) else 0) + index)
  {
    var parts := Pow2(steps - 1);
    assert Pow2(steps) as real == 2.0 * parts as real;
    if upper {
      assert (parts + index) as real == parts as real + index as real;
    }
  }

  /** On the way to a group no stop condition held. */
  lemma {:induction false} NotStoppedBefore(
      tris: seq<TriangleRef>, cell: Aabb, depth: nat, config: QuadtreeConfig, path: seq<nat>,
      found: seq<TriangleRef>, j: nat)
    requires Reached(tris, cell, depth, config, path, found) && j < |path|
    ensures forall i :: 0 <= i < |path| ==> path[i] < 4
    ensures !Stops(|Descend(tris, cell, path[..j])|, depth + j, CellAt(cell, path[..j]), config)
    decreases |path|
  {
    ReachedMeans(tris, cell, depth, config, path, found);
    if j == 0 {
      assert path[..0] == [];
    } else {
      NotStoppedBefore(
        Bucket(tris, cell, path[0]), ChildCell(cell, path[0]), depth + 1, config, path[1..], found, j - 1);
      assert path[..j][1..] == path[1..][..j - 1];
    }
  }

  /** Why a group of `count` triangles `steps` halvings below the root is not split: in terms of the root. */
  ghost predicate StopsBelow(count: nat, steps: nat, root: Aabb, config: QuadtreeConfig) {
    || count <= config.maxTrisPerLeaf
    || steps >= config.maxDepth
    || Within(root.max.x - root.min.x, config.minLeafSizeXy, steps)
    || Within(root.max.z - root.min.z, config.minLeafSizeXy, steps)
  }

  /** Halved `steps` times, an extent is at most `size`. */
  ghost predicate Within(extent: real, size: real, steps: nat) {
    extent <= size * Pow2(steps) as real
  }

  lemma {:induction false} StopsIff(count: nat, root: Aabb, path: seq<nat>, config: QuadtreeConfig)
    requires forall i :: 0 <= i < |path| ==> path[i] < 4
    ensures Stops(count, |path|, CellAt(root, path), config) <==> StopsBelow(count, |path|, root, config)
  {
    var cell := CellAt(root, path);
    CellOfPath(root, path);
    hide OnGrid, Within, CellAt;
    GridOrder(cell.min.x, cell.max.x, root.min.x, root.max.x, |path|, Column(path), config.minLeafSizeXy);
    GridOrder(cell.min.z, cell.max.z, root.min.z, root.max.z, |path|, Row(path), config.minLeafSizeXy);
  }

  lemma {:induction false} GridOrder(lo: real, hi: real, rootLo: real, rootHi: real, steps: nat, index: nat,
      size: real)
    requires OnGrid(lo, hi, rootLo, rootHi, steps, index)
    ensures hi - lo <= size <==> Within(rootHi - rootLo, size, steps)
  {
    Pow2Positive(steps);
    SameOrder(hi - lo, size, Pow2(steps) as real);
  }

  lemma {:induction false} SameOrder(a: real, b: real, factor: real)
    requires factor > 0.0
    ensures a <= b <==> a * factor <= b * factor
  {
    assert b * factor - a * factor == (b - a) * factor;
    if a <= b {
      assert (b - a) * factor >= 0.0;
    } else {
      assert (b - a) * factor < 0.0;
    }
  }

  lemma {:induction false} Pow2Positive(n: nat)
    ensures Pow2(n) > 0
  {
    if n > 0 {
      Pow2Positive(n - 1);
    }
  }

  /**
   * Where a chunk comes from: all triangles whose centroids descend to one cell of the grid over the root box, in
   * input order; their centroids lie over that cell. There one of the four stop conditions holds: few triangles,
   * the depth limit, or a cell that is narrow or short enough. None of them holds on the way.
   */
  lemma {:induction false} ChunkOrigin(
      groups: seq<Group>, build: QuadtreeBuild, triangles: seq<Triangle>, config: QuadtreeConfig, mapLabel: string,
      i: nat)
    requires Explains(groups, build, triangles, config, mapLabel) && i < |groups|
    ensures var g, root := groups[i], build.rootBounds;
      && (forall k :: 0 <= k < |g.path| ==> g.path[k] < 4)
      && g.tris == Descend(BuildRefs(triangles), root, g.path)
      && AllInCell(g.tris, CellAt(root, g.path))
      && (g.path == [] || |g.path| <= config.maxDepth)
    ensures var g, root, cell := groups[i], build.rootBounds, CellAt(build.rootBounds, groups[i].path);
      && OnGrid(cell.min.x, cell.max.x, root.min.x, root.max.x, |g.path|, Column(g.path))
      && OnGrid(cell.min.z, cell.max.z, root.min.z, root.max.z, |g.path|, Row(g.path))
    ensures var cell := CellAt(build.rootBounds, groups[i].path);
      forall j :: 0 <= j < |groups[i].tris| ==>
        && cell.min.x <= groups[i].tris[j].centroidX <= cell.max.x
        && cell.min.z <= groups[i].tris[j].centroidZ <= cell.max.z
    ensures Stops(|groups[i].tris|, |groups[i].path|, CellAt(build.rootBounds, groups[i].path), config)
    ensures StopsBelow(|groups[i].tris|, |groups[i].path|, build.rootBounds, config)
    ensures forall j :: 0 <= j < |groups[i].path| ==>
      !StopsBelow(|Descend(BuildRefs(triangles), build.rootBounds, groups[i].path[..j])|, j, build.rootBounds, config)
  {
    hide OnGrid, StopsBelow, Stops, Descend, CellAt;
    var refs, root, path := BuildRefs(triangles), build.rootBounds, groups[i].path;
    ReachedMeans(refs, root, 0, config, path, groups[i].tris);
    RefsOverRoot(triangles);
    CentroidsInCell(refs, root, path);
    CellOfPath(root, path);
    StopsIff(|groups[i].tris|, root, path, config);
    forall j | 0 <= j < |path|
      ensures !StopsBelow(|Descend(refs, root, path[..j])|, j, root, config)
    {
      NotStoppedBefore(refs, root, 0, config, path, groups[i].tris, j);
      StopsIff(|Descend(refs, root, path[..j])|, root, path[..j], config);
    }
  }

  /** Every centroid lies over the root box. */
  lemma {:induction false} RefsOverRoot(triangles: seq<Triangle>)
    requires triangles != []
    ensures AllInCell(BuildRefs(triangles), UnionFold(TriBoxes(BuildRefs(triangles))))
  {
    var refs := BuildRefs(triangles);
    var root := UnionFold(TriBoxes(refs));
    UnionFoldIsHull(TriBoxes(refs));
    forall t | 0 <= t < |refs| ensures InCell(refs[t], root) {
      assert InCell(refs[t], refs[t].bounds) && root.Covers(TriBoxes(refs)[t]);
    }
  }
}
