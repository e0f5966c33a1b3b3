/** When the query of a node array ends: exactly when no way down through meeting boxes comes back to a node. */
module BvhCycles {
  import opened Geometry
  import opened Bvh
  import opened BvhQuery

  /** A way down from node `i`: each node is pushed by the one before it, whose box meets the query. */
  ghost predicate Way(bvh: ChunkBoundsBvh, query: Aabb, i: nat, path: seq<nat>)
    decreases |path|
  {
    path == [] || (path[0] in PushedAt(bvh, query, i) && Way(bvh, query, path[0], path[1..]))
  }

  /** Where a way ends. */
  function End(i: nat, path: seq<nat>): nat {
    if path == [] then i else path[|path| - 1]
  }

  ghost predicate Repeats(s: seq<nat>) {
    exists a, b :: 0 <= a < b < |s| && s[a] == s[b]
  }

  /** Some way from the root comes to a node twice. */
  ghost predicate CycleMet(bvh: ChunkBoundsBvh, query: Aabb) {
    exists path :: Way(bvh, query, bvh.root, path) && Repeats([bvh.root] + path)
  }

  lemma {:induction false} WaySplits(bvh: ChunkBoundsBvh, query: Aabb, i: nat, path: seq<nat>, k: nat)
    requires Way(bvh, query, i, path) && k <= |path|
    ensures Way(bvh, query, i, path[..k]) && Way(bvh, query, End(i, path[..k]), path[k..])
    decreases |path|
  {
    hide PushedAt;
    if k > 0 {
      WaySplits(bvh, query, path[0], path[1..], k - 1);
      assert path[..k][1..] == path[1..][..k - 1];
    } else {
      assert path[..0] == [] && path[0..] == path;
    }
  }

  /** Each node of a way takes a level. */
  lemma {:induction false} ShallowBelow(bvh: ChunkBoundsBvh, query: Aabb, i: nat, n: nat, path: seq<nat>)
    requires Shallow(bvh, query, i, n) && Way(bvh, query, i, path)
    ensures |path| < n && Shallow(bvh, query, End(i, path), n - |path|)
    decreases |path|
  {
    hide PushedAt;
    if path != [] {
      ShallowMember(bvh, query, PushedAt(bvh, query, i), n - 1, path[0]);
      ShallowBelow(bvh, query, path[0], n - 1, path[1..]);
      assert End(i, path) == End(path[0], path[1..]);
    }
  }

  /** No way of bounded depth leads back to where it began. */
  lemma {:induction false} ShallowHasNoLoop(bvh: ChunkBoundsBvh, query: Aabb, i: nat, n: nat, loop: seq<nat>)
    requires Shallow(bvh, query, i, n) && Way(bvh, query, i, loop) && loop != []
    ensures End(i, loop) != i
    decreases n
  {
    ShallowBelow(bvh, query, i, n, loop);
    if End(i, loop) == i {
      ShallowHasNoLoop(bvh, query, i, n - |loop|, loop);
    }
  }

  /** A way of bounded depth from a node, with the node itself, has no two equal places. */
  lemma {:induction false} ShallowRepeatsNot(bvh: ChunkBoundsBvh, query: Aabb, i: nat, n: nat, path: seq<nat>,
      a: nat, b: nat)
    requires Shallow(bvh, query, i, n) && Way(bvh, query, i, path) && a < b <= |path|
    ensures ([i] + path)[a] != ([i] + path)[b]
  {
    hide PushedAt, Way, Shallow;
    var from, loop := End(i, path[..a]), path[a..][..b - a];
    WaySplits(bvh, query, i, path, a);
    ShallowBelow(bvh, query, i, n, path[..a]);
    WaySplits(bvh, query, from, path[a..], b - a);
    ShallowHasNoLoop(bvh, query, from, n - a, loop);
    assert loop[|loop| - 1] == path[b - 1];
  }

  lemma {:induction false} ShallowMeetsNoCycle(bvh: ChunkBoundsBvh, query: Aabb, n: nat)
    requires Shallow(bvh, query, bvh.root, n)
    ensures !CycleMet(bvh, query)
  {
    hide PushedAt, Way, Shallow;
    forall path, a, b | Way(bvh, query, bvh.root, path) && 0 <= a < b < |[bvh.root] + path|
      ensures ([bvh.root] + path)[a] != ([bvh.root] + path)[b]
    {
      ShallowRepeatsNot(bvh, query, bvh.root, n, path, a, b);
    }
  }

  /** A node that is not shallow among the members of a stack. */
  lemma {:induction false} DeepMember(bvh: ChunkBoundsBvh, query: Aabb, stack: seq<nat>, n: nat) returns (deep: nat)
    requires !AllShallow(bvh, query, stack, n)
    ensures deep in stack && !Shallow(bvh, query, deep, n)
    decreases |stack|
  {
    hide PushedAt, Shallow;
    deep := stack[|stack| - 1];
    if Shallow(bvh, query, deep, n) {
      deep := DeepMember(bvh, query, stack[..|stack| - 1], n);
    }
  }

  /** Below a node that is not shallow there is a way as long as the bound; all but its end are real nodes. */
  lemma {:induction false} LongWay(bvh: ChunkBoundsBvh, query: Aabb, i: nat, n: nat) returns (path: seq<nat>)
    requires !Shallow(bvh, query, i, n)
    ensures |path| == n && Way(bvh, query, i, path)
    ensures forall k :: 0 <= k < n ==> ([i] + path)[k] < |bvh.nodes|
    decreases n
  {
    path := [];
    if n > 0 {
      var child := DeepMember(bvh, query, PushedAt(bvh, query, i), n - 1);
      var rest := LongWay(bvh, query, child, n - 1);
      path := [child] + rest;
      assert path[1..] == rest;
      assert i < |bvh.nodes|;
      assert forall k :: 0 < k < n ==> ([i] + path)[k] == ([child] + rest)[k - 1];
    }
  }

  /** More places than values: some value stands twice. */
  lemma {:induction false} Pigeonhole(s: seq<nat>, n: nat)
    requires |s| > n > 0 && forall i :: 0 <= i < |s| ==> s[i] < n
    ensures Repeats(s)
    decreases n
  {
    if n == 1 {
      assert s[0] == s[1];
    } else if j :| 0 <= j < |s| && s[j] == n - 1 {
      if k :| 0 <= k < |s| && k != j && s[k] == n - 1 {
        assert s[if j < k then j else k] == s[if j < k then k else j];
      } else {
        var rest := s[..j] + s[j + 1..];
        assert forall i :: 0 <= i < |rest| ==> rest[i] == s[if i < j then i else i + 1];
        Pigeonhole(rest, n - 1);
        var a, b :| 0 <= a < b < |rest| && rest[a] == rest[b];
        assert s[if a < j then a else a + 1] == s[if b < j then b else b + 1];
      }
    } else {
      Pigeonhole(s, n - 1);
    }
  }

  /** A way with more nodes than there are comes to one of them twice. */
  lemma {:induction false} DeepMeetsCycle(bvh: ChunkBoundsBvh, query: Aabb)
    requires !Shallow(bvh, query, bvh.root, |bvh.nodes| + 1)
    ensures CycleMet(bvh, query)
  {
    var n := |bvh.nodes|;
    var path := LongWay(bvh, query, bvh.root, n + 1);
    var visited := [bvh.root] + path;
    assert visited[0] < n;
    Pigeonhole(visited[..n + 1], n);
    var a, b :| 0 <= a < b < n + 1 && visited[..n + 1][a] == visited[..n + 1][b];
    assert visited[a] == visited[b];
  }

  /**
   * The loop over the stack ends, on whatever node array, exactly when no way from the root through boxes that
   * meet the query comes to a node twice; then no way is longer than there are nodes.
   */
  lemma {:induction false} SearchEndsIffNoCycle(bvh: ChunkBoundsBvh, query: Aabb)
    ensures SearchEnds(bvh, query) <==> !CycleMet(bvh, query)
    ensures !CycleMet(bvh, query) ==> Shallow(bvh, query, bvh.root, |bvh.nodes| + 1)
  {
    if turns :| StackAfter(bvh, query, [bvh.root], turns) == [] {
      EndsShallow(bvh, query, [bvh.root], turns);
      OnlyOne(bvh, [], query, turns, bvh.root);
      ShallowMeetsNoCycle(bvh, query, turns);
    }
    var n := |bvh.nodes| + 1;
    if Shallow(bvh, query, bvh.root, n) {
      OnlyOne(bvh, [], query, n, bvh.root);
      ShallowEnds(bvh, query, [bvh.root], n);
    } else {
      DeepMeetsCycle(bvh, query);
    }
  }

  /** No way down a built hierarchy comes to a node twice. */
  lemma {:induction false} BuiltMeetsNoCycle(bvh: ChunkBoundsBvh, chunks: seq<CollisionChunk>, query: Aabb)
    requires Built(bvh, chunks)
    ensures !CycleMet(bvh, query) && SearchEnds(bvh, query)
  {
    var n := BuiltIsShallow(bvh, chunks, query);
    ShallowMeetsNoCycle(bvh, query, n);
    SearchEndsIffNoCycle(bvh, query);
  }
}
