/** Cooking a collision world: quadtree chunks, their hierarchy, and what queries of the result promise. */
module BspCook {
  import opened Results
  import opened Geometry
  import opened Bvh
  import opened BvhQuery
  import opened Words
  import opened Quadtree
  import opened BvhValidation

  datatype BspCookConfig = BspCookConfig(
    mapId: string, mapToWorldScale: real, spaceOrigin: Vec3, quadtree: QuadtreeConfig)

  datatype CookError = EmptyMapId | BadWorldScale | Bsp(message: string) | EmptyLabel | Chunks(error: QuadtreeError)

  function SanitizeLabel(mapId: string): string {
    Text.TrimMatches(
      Text.ReplaceChar(Text.ReplaceChar(Text.Trim(mapId), '\\', "/"), ':', "/"), '/')
  }

  lemma {:induction false} LabelSteps(mapId: string)
    ensures var name := Text.Trim(mapId);
      var slashed := Text.ReplaceChar(Text.ReplaceChar(name, '\\', "/"), ':', "/");
      && SanitizeLabel(mapId) == Text.TrimMatches(slashed, '/') && |slashed| == |name|
      && forall i :: 0 <= i < |name| ==>
           slashed[i] == if name[i] == ':' || name[i] == '\\' then '/' else name[i]
  {
    var name := Text.Trim(mapId);
    Text.ReplacedAt(name, '\\', '/');
    Text.ReplacedAt(Text.ReplaceChar(name, '\\', "/"), ':', '/');
  }

  /** A label has no separators but slashes, and none at its ends; it is empty when the name has nothing else. */
  lemma {:induction false} LabelIsClean(mapId: string)
    ensures var clean := SanitizeLabel(mapId);
      && ':' !in clean && '\\' !in clean
      && (clean != [] ==> clean[0] != '/' && clean[|clean| - 1] != '/')
    ensures SanitizeLabel(mapId) == [] <==>
      forall i :: 0 <= i < |Text.Trim(mapId)| ==> Text.Trim(mapId)[i] in ['/', ':', '\\']
  {
    var name := Text.Trim(mapId);
    var slashed := Text.ReplaceChar(Text.ReplaceChar(name, '\\', "/"), ':', "/");
    LabelSteps(mapId);
    Text.TrimMatchesKeeps(slashed, '/');
  }

  /** A trimmed name of plain characters without a slash at its ends is its own label. */
  lemma {:induction false} PlainNameIsLabel(mapId: string)
    requires mapId != [] && Text.Trim(mapId) == mapId && ':' !in mapId && '\\' !in mapId
    requires mapId[0] != '/' && mapId[|mapId| - 1] != '/'
    ensures SanitizeLabel(mapId) == mapId
  {
    var slashed := Text.ReplaceChar(Text.ReplaceChar(mapId, '\\', "/"), ':', "/");
    LabelSteps(mapId);
    assert slashed == mapId;
    Text.TrimMatchesKeeps(slashed, '/');
  }

  /** When a map with these triangles cooks. */
  predicate Cookable(source: Result<seq<Triangle>, string>, config: BspCookConfig) {
    && Text.Trim(config.mapId) != [] && config.mapToWorldScale > 0.0
    && source.Ok? && source.value != []
    && SanitizeLabel(config.mapId) != []
    && config.quadtree.minLeafSizeXy > 0.0
  }

  /** The world a cook produces, with the grouping of triangles behind its chunks. */
  ghost predicate Cooked(
      world: CollisionWorld, groups: seq<Group>, triangles: seq<Triangle>, config: BspCookConfig)
  {
    && world.version == 1 && world.partitionKind == Quadtree2d
    && world.spaceOrigin == config.spaceOrigin && world.mapToWorldScale == config.mapToWorldScale > 0.0
    && Explains(groups, QuadtreeBuild(world.chunks, world.rootBounds), triangles, config.quadtree,
                SanitizeLabel(config.mapId))
    && Built(world.chunkBoundsBvh, world.chunks)
  }

  /** `source` is the triangle list read from the BSP, or why it could not be read. */
  method BuildBspCollisionWorld(source: Result<seq<Triangle>, string>, config: BspCookConfig)
    returns (r: Result<CollisionWorld, CookError>, ghost groups: seq<Group>)
    requires source.Ok? ==> |source.value| < U32_LIMIT
    ensures r.Ok? <==> Cookable(source, config)
    ensures r.Ok? ==> Cooked(r.value, groups, source.value, config)
    ensures r.Err? ==> (
      if Text.Trim(config.mapId) == [] then r.error == EmptyMapId
      else if config.mapToWorldScale <= 0.0 then r.error == BadWorldScale
      else if source.Err? then r.error == Bsp(source.error)
      else if SanitizeLabel(config.mapId) == [] then r.error == EmptyLabel
      else if source.value == [] then r.error == Chunks(QuadtreeError.NoTriangles)
      else config.quadtree.minLeafSizeXy <= 0.0 && r.error == Chunks(BadLeafSize))
  {
    groups := [];
    if Text.Trim(config.mapId) == [] {
      return Err(EmptyMapId), [];
    }
    if config.mapToWorldScale <= 0.0 {
      return Err(BadWorldScale), [];
    }
    if source.Err? {
      return Err(Bsp(source.error)), [];
    }
    var mapLabel := SanitizeLabel(config.mapId);
    if mapLabel == [] {
      return Err(EmptyLabel), [];
    }
    var build;
    build, groups := BuildQuadtreeChunks(source.value, config.quadtree, mapLabel);
    if build.Err? {
      return Err(Chunks(build.error)), groups;
    }
    FewChunks(groups, build.value, source.value, config.quadtree, mapLabel);
    var bvh := BuildChunkBoundsBvh(build.value.chunks);
    r := Ok(CollisionWorld(1, Quadtree2d, config.spaceOrigin, build.value.rootBounds,
                           config.mapToWorldScale, build.value.chunks, bvh.value));
  }

  lemma {:induction false} FewChunks(
      groups: seq<Group>, build: QuadtreeBuild, triangles: seq<Triangle>, config: QuadtreeConfig, mapLabel: string)
    requires Explains(groups, build, triangles, config, mapLabel)
    ensures 1 <= |build.chunks| <= |triangles|
  {
    GroupIsNotEmpty(BuildRefs(triangles), build.rootBounds, 0, config, groups);
    ChunkCount(groups);
    ChunksFillRoot(groups, build, triangles, config, mapLabel);
    assert |multiset(Members(groups))| == |multiset(BuildRefs(triangles))|;
  }

  lemma {:induction false} ChunkNamesNotBlank(mapLabel: string, index: nat, tris: seq<TriangleRef>)
    ensures !Blank(ChunkOf(mapLabel, index, tris).chunkId)
    ensures !Blank(ChunkOf(mapLabel, index, tris).payloadRef)
  {
    var id := ChunkId(mapLabel, index);
    var name := "inline:" + id;
    assert id[|mapLabel|] == '/' && !Text.IsWhitespace('/');
    assert name[0] == 'i' && !Text.IsWhitespace('i');
    Text.TrimEmptyIffBlank(id);
    Text.TrimEmptyIffBlank(name);
  }

  lemma {:induction false} CookedChunksOk(
      world: CollisionWorld, groups: seq<Group>, triangles: seq<Triangle>, config: BspCookConfig)
    requires Cooked(world, groups, triangles, config)
    ensures ChunksOk(world.chunks, |world.chunks|) && ChunkBoxesValid(world.chunks)
  {
    var mapLabel := SanitizeLabel(config.mapId);
    ChunkBoxesAreHulls(
      groups, QuadtreeBuild(world.chunks, world.rootBounds), triangles, config.quadtree, mapLabel);
    forall i | 0 <= i < |world.chunks| ensures ChunkOk(world.chunks[i]) {
      ChunkNamesNotBlank(mapLabel, i, groups[i].tris);
    }
    AllChunksOk(world.chunks, |world.chunks|);
  }

  lemma {:induction false} EqualBoxesContain(box: Aabb, union: Aabb)
    requires box == union && box.Valid()
    ensures box.Contains(union, BOUNDS_EPS) && box.NearEq(union, BOUNDS_EPS)
  {
  }

  /** Every cooked world passes validation with no error, and its root box is exactly its chunks' union. */
  lemma {:induction false} CookedWorldIsValid(
      world: CollisionWorld, groups: seq<Group>, triangles: seq<Triangle>, config: BspCookConfig)
    requires Cooked(world, groups, triangles, config)
    ensures WorldOk(world)
    ensures world.chunks != [] && world.rootBounds == UnionOfChunks(world.chunks)
    ensures world.rootBounds.NearEq(UnionOfChunks(world.chunks), BOUNDS_EPS)
  {
    ChunksFillRoot(
      groups, QuadtreeBuild(world.chunks, world.rootBounds), triangles, config.quadtree, SanitizeLabel(config.mapId));
    CookedChunksOk(world, groups, triangles, config);
    BuiltIsValid(world.chunkBoundsBvh, world.chunks);
    UnionOfValidIsValid(world.chunks, Indices(|world.chunks|));
    EqualBoxesContain(world.rootBounds, UnionOfChunks(world.chunks));
  }

  /** A triangle whose box meets the query lies in a chunk that meets it, wherever its centroid put it. */
  lemma {:induction false} HitTriangleIsSelected(
      world: CollisionWorld, groups: seq<Group>, triangles: seq<Triangle>, config: BspCookConfig,
      query: Aabb, selected: seq<nat>, t: nat) returns (k: nat)
    requires Cooked(world, groups, triangles, config) && t < |triangles|
    requires multiset(selected) == multiset(BruteForce(world.chunks, query))
    requires TriangleBounds(triangles[t]).Intersects(query)
    ensures ChunkSelected(groups, selected, BuildRef(triangles[t]), k)
  {
    var build, mapLabel := QuadtreeBuild(world.chunks, world.rootBounds), SanitizeLabel(config.mapId);
    k := TriangleHasChunk(groups, build, triangles, config.quadtree, mapLabel, t);
    MeetsThrough(world.chunks[k].Bounds(), TriangleBounds(triangles[t]), query);
    ExactlySelected(world.chunks, query, selected, k);
  }

  /** Chunk `k` was selected and holds the triangle. */
  ghost predicate ChunkSelected(groups: seq<Group>, selected: seq<nat>, tri: TriangleRef, k: nat) {
    k in selected && k < |groups| && tri in groups[k].tris
  }

  /** Every triangle whose box meets the query has its chunk selected. */
  ghost predicate AllHitsSelected(groups: seq<Group>, selected: seq<nat>, triangles: seq<Triangle>, query: Aabb) {
    forall t :: 0 <= t < |triangles| && TriangleBounds(triangles[t]).Intersects(query) ==>
      exists k: nat :: ChunkSelected(groups, selected, BuildRef(triangles[t]), k)
  }

  /** Every selected chunk meets the query, and is selected once. */
  ghost predicate SelectedOnlyHits(world: CollisionWorld, selected: seq<nat>, query: Aabb) {
    forall k: nat :: k in selected ==>
      k < |world.chunks| && world.chunks[k].Bounds().Intersects(query) && multiset(selected)[k] == 1
  }

  /**
   * End to end: cooks a world and queries it. Whenever the cook succeeds, no triangle that the query could hit
   * is missed, no chunk is selected in vain or twice, and the world passes validation.
   */
  method CookAndSelect(source: Result<seq<Triangle>, string>, config: BspCookConfig, query: Aabb)
    returns (r: Result<(CollisionWorld, seq<nat>), CookError>, ghost groups: seq<Group>)
    requires source.Ok? ==> |source.value| < U32_LIMIT
    ensures r.Ok? <==> Cookable(source, config)
    ensures r.Ok? ==>
      && Cooked(r.value.0, groups, source.value, config) && WorldOk(r.value.0)
      && AllHitsSelected(groups, r.value.1, source.value, query)
      && SelectedOnlyHits(r.value.0, r.value.1, query)
  {
    var cooked;
    cooked, groups := BuildBspCollisionWorld(source, config);
    if cooked.Err? {
      return Err(cooked.error), groups;
    }
    var world := cooked.value;
    CookedWorldIsValid(world, groups, source.value, config);
    ghost var n := BuiltIsShallow(world.chunkBoundsBvh, world.chunks, query);
    var selected, trace, deepest := SelectIntersecting(world.chunkBoundsBvh, world.chunks, query, n);
    NothingMissed(world, groups, source.value, config, query, selected);
    NothingInVain(world, query, selected);
    r := Ok((world, selected));
  }

  lemma {:induction false} NothingMissed(
      world: CollisionWorld, groups: seq<Group>, triangles: seq<Triangle>, config: BspCookConfig,
      query: Aabb, selected: seq<nat>)
    requires Cooked(world, groups, triangles, config)
    requires multiset(selected) == multiset(BruteForce(world.chunks, query))
    ensures AllHitsSelected(groups, selected, triangles, query)
  {
    forall t | 0 <= t < |triangles| && TriangleBounds(triangles[t]).Intersects(query)
      ensures exists k: nat :: ChunkSelected(groups, selected, BuildRef(triangles[t]), k)
    {
      var k := HitTriangleIsSelected(world, groups, triangles, config, query, selected, t);
    }
  }

  lemma {:induction false} NothingInVain(world: CollisionWorld, query: Aabb, selected: seq<nat>)
    requires multiset(selected) == multiset(BruteForce(world.chunks, query))
    ensures SelectedOnlyHits(world, selected, query)
  {
    forall k: nat | k in selected
      ensures k < |world.chunks| && world.chunks[k].Bounds().Intersects(query) && multiset(selected)[k] == 1
    {
      SelectedMeetsQuery(world, query, selected, k);
    }
  }

  lemma {:induction false} MeetsThrough(outer: Aabb, inner: Aabb, query: Aabb)
    requires outer.Covers(inner) && inner.Intersects(query)
    ensures outer.Intersects(query)
  {
  }

  lemma {:induction false} ExactlySelected(chunks: seq<CollisionChunk>, query: Aabb, selected: seq<nat>, k: nat)
    requires multiset(selected) == multiset(BruteForce(chunks, query))
    ensures k in selected <==> Meets(chunks, k, query)
    ensures k in selected ==> multiset(selected)[k] == 1
  {
    BruteForceIsExact(chunks, query, k);
    assert k in selected <==> k in multiset(selected);
  }

  /** And nothing is selected in vain: a selected chunk's box meets the query, and no chunk is selected twice. */
  lemma {:induction false} SelectedMeetsQuery(world: CollisionWorld, query: Aabb, selected: seq<nat>, k: nat)
    requires multiset(selected) == multiset(BruteForce(world.chunks, query)) && k in selected
    ensures k < |world.chunks| && world.chunks[k].Bounds().Intersects(query)
    ensures multiset(selected)[k] == 1
  {
    ExactlySelected(world.chunks, query, selected, k);
  }
}
