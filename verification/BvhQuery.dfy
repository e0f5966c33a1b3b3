/** The query of the node array: an explicit stack, pruned by boxes, against testing every chunk. */
module BvhQuery {
  import opened Sequences
  import opened Geometry
  import opened Bvh

  /** What a query of the subtree selects: right subtree first, each leaf in stored order. */
  ghost function SelectTree(chunks: seq<CollisionChunk>, t: Tree, query: Aabb): seq<nat> {
    if !t.box.Intersects(query) then
      []
    else
      match t
      case Leaf(_, _, _, ids) => Matches(chunks, ids, query)
      case Branch(_, _, l, r) => SelectTree(chunks, r, query) + SelectTree(chunks, l, query)
  }

  /** Pruning is exact: a subtree query keeps every match below it and nothing else. */
  lemma {:induction false} SelectTreeIsFilter(chunks: seq<CollisionChunk>, t: Tree, query: Aabb)
    requires Faithful(chunks, t)
    ensures multiset(SelectTree(chunks, t, query)) == multiset(Matches(chunks, t.Items(), query))
  {
    if !t.box.Intersects(query) {
      UnionCovers(chunks, t.Items());
      NoMatchOutsideHull(chunks, t.Items(), t.box, query);
    } else if t.Branch? {
      SelectTreeIsFilter(chunks, t.left, query);
      SelectTreeIsFilter(chunks, t.right, query);
      MatchesConcat(chunks, t.left.Items(), t.right.Items(), query);
    }
  }

  lemma {:induction false} SelectIsBruteForce(bvh: ChunkBoundsBvh, chunks: seq<CollisionChunk>, t: Tree, query: Aabb)
    requires BuiltAs(bvh, chunks, t)
    ensures multiset(SelectTree(chunks, t, query)) == multiset(BruteForce(chunks, query))
  {
    SelectTreeIsFilter(chunks, t, query);
    MatchesOfPermutation(chunks, t.Items(), Indices(|chunks|), query);
  }

  lemma {:induction false} MatchesOfPermutation(chunks: seq<CollisionChunk>, s: seq<nat>, t: seq<nat>, query: Aabb)
    requires multiset(s) == multiset(t)
    ensures multiset(Matches(chunks, s, query)) == multiset(Matches(chunks, t, query))
  {
    forall k: nat ensures multiset(Matches(chunks, s, query))[k] == multiset(Matches(chunks, t, query))[k] {
      MatchCount(chunks, s, query, k);
      MatchCount(chunks, t, query, k);
    }
  }

  /** The reference filter lists each meeting chunk exactly once and nothing else. */
  lemma {:induction false} BruteForceIsExact(chunks: seq<CollisionChunk>, query: Aabb, k: nat)
    ensures multiset(BruteForce(chunks, query))[k]
         == if Meets(chunks, k, query) then 1 else 0
  {
    var ids := Indices(|chunks|);
    MatchCount(chunks, ids, query, k);
    IndicesOnce(|chunks|, k);
  }

  lemma {:induction false} IndicesOnce(n: nat, k: nat)
    ensures multiset(Indices(n))[k] == if k < n then 1 else 0
  {
    if n > 0 {
      IndicesOnce(n - 1, k);
      assert Indices(n) == Indices(n - 1) + [n - 1];
    }
  }

  /** Subtrees still to visit, top of the stack first. */
  datatype Pending = Done | Next(t: Tree, rest: Pending) {
    function Length(): nat { if Done? then 0 else 1 + rest.Length() }

    /** After visiting this top branch: its right child on its left child. */
    function Expanded(): Pending
      requires Next? && t.Branch?
    {
      Next(t.right, Next(t.left, rest))
    }
  }

  /** The indices on the program's stack are the roots of the pending subtrees. */
  ghost predicate Represents(stack: seq<nat>, p: Pending)
    decreases p
  {
    || (p.Done? && stack == [])
    || (p.Next? && stack != [] && stack[|stack| - 1] == p.t.at && Represents(stack[..|stack| - 1], p.rest))
  }

  /** Pending subtrees are stored, lie right to left below `bound`, and are short enough for `height`. */
  ghost predicate PendingOk(bvh: ChunkBoundsBvh, p: Pending, bound: nat, height: nat)
    decreases p
  {
    p.Done? ||
    (&& Stored(bvh.nodes, bvh.leafIndices, p.t) && p.t.Packed()
     && p.t.at < bound
     && p.t.Height() + p.rest.Length() <= height
     && PendingOk(bvh, p.rest, p.t.Low(), height))
  }

  lemma {:induction false} BoundCanGrow(bvh: ChunkBoundsBvh, p: Pending, bound: nat, bound': nat, height: nat)
    requires PendingOk(bvh, p, bound, height) && bound <= bound'
    ensures PendingOk(bvh, p, bound', height)
  {
  }

  lemma {:induction false} ExpandedOk(bvh: ChunkBoundsBvh, p: Pending, bound: nat, height: nat)
    requires PendingOk(bvh, p, bound, height) && p.Next? && p.t.Branch?
    ensures PendingOk(bvh, p.Expanded(), p.t.at, height)
  {
    PackedExtent(p.t.right);
    assert PendingOk(bvh, p.Expanded().rest, p.t.right.Low(), height);
  }

  lemma {:induction false} RepresentsExpanded(stack: seq<nat>, p: Pending)
    requires p.Next? && p.t.Branch? && Represents(stack, p.rest)
    ensures Represents(stack + [p.t.left.at] + [p.t.right.at], p.Expanded())
  {
    var pushed := stack + [p.t.left.at];
    assert pushed[..|stack|] == stack;
    assert (pushed + [p.t.right.at])[..|pushed|] == pushed;
  }

  lemma {:induction false} RepresentsLength(stack: seq<nat>, p: Pending)
    requires Represents(stack, p)
    ensures |stack| == p.Length()
    decreases p
  {
    if p.Next? { RepresentsLength(stack[..|stack| - 1], p.rest); }
  }

  ghost predicate Descending(trace: seq<nat>) {
    forall i, k :: 0 <= i < k < |trace| ==> trace[k] < trace[i]
  }

  /** Nodes visited in falling order, the first below `nodes`, none below `bound`. */
  ghost predicate Falls(trace: seq<nat>, nodes: nat, bound: nat) {
    || (trace == [] && bound <= nodes)
    || (trace != [] && bound <= trace[|trace| - 1] && Falls(trace[..|trace| - 1], nodes, trace[|trace| - 1] + 1))
  }

  lemma {:induction false} FallsFurther(trace: seq<nat>, nodes: nat, bound: nat, next: nat)
    requires Falls(trace, nodes, bound) && next < bound
    ensures Falls(trace + [next], nodes, next)
  {
    assert (trace + [next])[..|trace|] == trace;
    assert Falls(trace, nodes, next + 1);
  }

  lemma {:induction false} FallsFromZero(trace: seq<nat>, nodes: nat, bound: nat)
    requires Falls(trace, nodes, bound)
    ensures Falls(trace, nodes, 0)
  {
  }

  lemma {:induction false} FallingDescends(trace: seq<nat>, nodes: nat, bound: nat)
    requires Falls(trace, nodes, bound)
    ensures Descending(trace) && forall i :: 0 <= i < |trace| ==> bound <= trace[i] < nodes
  {
    if trace != [] {
      FallingDescends(trace[..|trace| - 1], nodes, trace[|trace| - 1] + 1);
    }
  }

  /** What the arrays hold for the subtree on top, and what is left once it is popped. */
  lemma {:induction false} TopIsStored(bvh: ChunkBoundsBvh, p: Pending, bound: nat, height: nat)
    requires PendingOk(bvh, p, bound, height) && p.Next?
    ensures p.t.at < bound && p.t.at < |bvh.nodes| && bvh.nodes[p.t.at] == p.t.Entry()
    ensures p.t.Leaf? ==>
      && p.t.first + |p.t.ids| <= |bvh.leafIndices|
      && bvh.leafIndices[p.t.first..p.t.first + |p.t.ids|] == p.t.ids
    ensures PendingOk(bvh, p.rest, p.t.at, height)
  {
    PackedExtent(p.t);
    BoundCanGrow(bvh, p.rest, p.t.Low(), p.t.at, height);
  }

  /** A stack of a search over a stored tree, with what it visited before. */
  ghost predicate OnTree(bvh: ChunkBoundsBvh, stack: seq<nat>, trace: seq<nat>, p: Pending, bound: nat, height: nat) {
    Represents(stack, p) && PendingOk(bvh, p, bound, height) && Falls(trace, |bvh.nodes|, bound)
  }

  lemma {:induction false} StartOk(bvh: ChunkBoundsBvh, chunks: seq<CollisionChunk>, t: Tree)
    requires BuiltAs(bvh, chunks, t)
    ensures OnTree(bvh, [bvh.root], [], Next(t, Done), |bvh.nodes|, t.Height())
  {
    assert [bvh.root][..0] == [];
    assert PendingOk(bvh, Done, t.Low(), t.Height());
  }

  // ---------- What one node adds ----------

  /** The matching references of a leaf whose box meets the query and whose range lies in the list. */
  function FoundAt(bvh: ChunkBoundsBvh, chunks: seq<CollisionChunk>, query: Aabb, i: nat): seq<nat> {
    if i < |bvh.nodes| && bvh.nodes[i].bounds.Intersects(query) && bvh.nodes[i].leaf.Some? then
      var leaf := bvh.nodes[i].leaf.value;
      if leaf.first + leaf.count <= |bvh.leafIndices|
      then Matches(chunks, bvh.leafIndices[leaf.first..leaf.first + leaf.count], query) else []
    else []
  }

  /** The children a node without a leaf puts on the stack, when its box meets the query. */
  function PushedAt(bvh: ChunkBoundsBvh, query: Aabb, i: nat): seq<nat> {
    if i < |bvh.nodes| && bvh.nodes[i].bounds.Intersects(query) && bvh.nodes[i].leaf.None?
    then Children(bvh.nodes[i]) else []
  }

  function Children(node: BvhNode): seq<nat> {
    (if node.left.Some? then [node.left.value] else []) + (if node.right.Some? then [node.right.value] else [])
  }

  // ---------- Any hierarchy ----------

  /** Every way down from node `i` through boxes that meet the query has fewer than `n` nodes below it. */
  ghost predicate Shallow(bvh: ChunkBoundsBvh, query: Aabb, i: nat, n: nat)
    decreases n, 0
  {
    n > 0 && AllShallow(bvh, query, PushedAt(bvh, query, i), n - 1)
  }

  ghost predicate AllShallow(bvh: ChunkBoundsBvh, query: Aabb, stack: seq<nat>, n: nat)
    decreases n, 1 + |stack|
  {
    stack == [] ||
    (AllShallow(bvh, query, stack[..|stack| - 1], n) && Shallow(bvh, query, stack[|stack| - 1], n))
  }

  /** What a search from node `i` selects within `n` levels: what it holds itself, then what its children reach. */
  ghost function Reach(bvh: ChunkBoundsBvh, chunks: seq<CollisionChunk>, query: Aabb, n: nat, i: nat): seq<nat>
    decreases n, 0
  {
    if n == 0 then [] else
    FoundAt(bvh, chunks, query, i) + ReachAll(bvh, chunks, query, n - 1, PushedAt(bvh, query, i))
  }

  /** What a search from the nodes of a stack selects, from the top down. */
  ghost function ReachAll(
      bvh: ChunkBoundsBvh, chunks: seq<CollisionChunk>, query: Aabb, n: nat, stack: seq<nat>): seq<nat>
    decreases n, 1 + |stack|
  {
    if stack == [] then [] else
    Reach(bvh, chunks, query, n, stack[|stack| - 1]) + ReachAll(bvh, chunks, query, n, stack[..|stack| - 1])
  }

  /** How many nodes such a search visits. */
  ghost function Visits(bvh: ChunkBoundsBvh, query: Aabb, n: nat, i: nat): nat
    decreases n, 0
  {
    if n == 0 then 0 else 1 + VisitsOfAll(bvh, query, n - 1, PushedAt(bvh, query, i))
  }

  ghost function VisitsOfAll(bvh: ChunkBoundsBvh, query: Aabb, n: nat, stack: seq<nat>): nat
    decreases n, 1 + |stack|
  {
    if stack == [] then 0 else
    VisitsOfAll(bvh, query, n, stack[..|stack| - 1]) + Visits(bvh, query, n, stack[|stack| - 1])
  }

  /** More levels than there are change nothing. */
  lemma {:induction false} Settles(
      bvh: ChunkBoundsBvh, chunks: seq<CollisionChunk>, query: Aabb, stack: seq<nat>, n: nat)
    requires AllShallow(bvh, query, stack, n)
    ensures AllShallow(bvh, query, stack, n + 1)
    ensures ReachAll(bvh, chunks, query, n + 1, stack) == ReachAll(bvh, chunks, query, n, stack)
    ensures VisitsOfAll(bvh, query, n + 1, stack) == VisitsOfAll(bvh, query, n, stack)
    decreases n, |stack|
  {
    if stack != [] {
      Settles(bvh, chunks, query, stack[..|stack| - 1], n);
      NodeSettles(bvh, chunks, query, stack[|stack| - 1], n);
    }
  }

  lemma {:induction false} NodeSettles(bvh: ChunkBoundsBvh, chunks: seq<CollisionChunk>, query: Aabb, i: nat, n: nat)
    requires Shallow(bvh, query, i, n)
    ensures Shallow(bvh, query, i, n + 1)
    ensures Reach(bvh, chunks, query, n + 1, i) == Reach(bvh, chunks, query, n, i)
    ensures Visits(bvh, query, n + 1, i) == Visits(bvh, query, n, i)
    decreases n, 0
  {
    hide PushedAt, FoundAt;
    Settles(bvh, chunks, query, PushedAt(bvh, query, i), n - 1);
  }

  lemma {:induction false} StacksJoin(
      bvh: ChunkBoundsBvh, chunks: seq<CollisionChunk>, query: Aabb, n: nat, lower: seq<nat>, upper: seq<nat>)
    ensures AllShallow(bvh, query, lower + upper, n) <==>
      AllShallow(bvh, query, lower, n) && AllShallow(bvh, query, upper, n)
    ensures ReachAll(bvh, chunks, query, n, lower + upper)
         == ReachAll(bvh, chunks, query, n, upper) + ReachAll(bvh, chunks, query, n, lower)
    ensures VisitsOfAll(bvh, query, n, lower + upper)
         == VisitsOfAll(bvh, query, n, lower) + VisitsOfAll(bvh, query, n, upper)
    decreases |upper|
  {
    hide Reach, Visits, Shallow;
    if upper == [] {
      Grown(lower);
      Grown(ReachAll(bvh, chunks, query, n, lower));
    } else {
      var init, last := upper[..|upper| - 1], upper[|upper| - 1];
      StacksJoin(bvh, chunks, query, n, lower, init);
      assert (lower + upper)[..|lower + upper| - 1] == lower + init;
      Appended(Reach(bvh, chunks, query, n, last), ReachAll(bvh, chunks, query, n, init),
        ReachAll(bvh, chunks, query, n, lower));
    }
  }

  lemma {:induction false} OnlyOne(bvh: ChunkBoundsBvh, chunks: seq<CollisionChunk>, query: Aabb, n: nat, i: nat)
    ensures AllShallow(bvh, query, [i], n) <==> Shallow(bvh, query, i, n)
    ensures ReachAll(bvh, chunks, query, n, [i]) == Reach(bvh, chunks, query, n, i)
    ensures VisitsOfAll(bvh, query, n, [i]) == Visits(bvh, query, n, i)
  {
    hide Reach, Visits, Shallow;
    assert [i][..0] == [];
    Grown(Reach(bvh, chunks, query, n, i));
  }

  /** A turn of the loop selects what the top node holds, leaves the rest to its children, and is one visit. */
  lemma {:induction false} VisitReaches(
      bvh: ChunkBoundsBvh, chunks: seq<CollisionChunk>, query: Aabb, n: nat, below: seq<nat>, top: nat)
    requires AllShallow(bvh, query, below + [top], n)
    ensures var next := below + PushedAt(bvh, query, top);
      && AllShallow(bvh, query, next, n)
      && ReachAll(bvh, chunks, query, n, below + [top])
           == FoundAt(bvh, chunks, query, top) + ReachAll(bvh, chunks, query, n, next)
      && VisitsOfAll(bvh, query, n, below + [top]) == 1 + VisitsOfAll(bvh, query, n, next)
  {
    hide PushedAt, FoundAt, AllShallow, ReachAll, VisitsOfAll;
    var pushed := PushedAt(bvh, query, top);
    StacksJoin(bvh, chunks, query, n, below, [top]);
    StacksJoin(bvh, chunks, query, n, below, pushed);
    OnlyOne(bvh, chunks, query, n, top);
    Settles(bvh, chunks, query, pushed, n - 1);
    Appended(FoundAt(bvh, chunks, query, top), ReachAll(bvh, chunks, query, n, pushed),
      ReachAll(bvh, chunks, query, n, below));
  }

  // ---------- When the search ends ----------

  /** The stack after a number of turns. */
  function StackAfter(bvh: ChunkBoundsBvh, query: Aabb, stack: seq<nat>, turns: nat): seq<nat>
    decreases turns
  {
    if turns == 0 || stack == [] then stack else
    StackAfter(bvh, query, stack[..|stack| - 1] + PushedAt(bvh, query, stack[|stack| - 1]), turns - 1)
  }

  lemma {:induction false} ShallowEnds(bvh: ChunkBoundsBvh, query: Aabb, stack: seq<nat>, n: nat)
    requires AllShallow(bvh, query, stack, n)
    ensures StackAfter(bvh, query, stack, VisitsOfAll(bvh, query, n, stack)) == []
    decreases VisitsOfAll(bvh, query, n, stack)
  {
    if stack != [] {
      var below, top := stack[..|stack| - 1], stack[|stack| - 1];
      assert stack == below + [top];
      VisitReaches(bvh, [], query, n, below, top);
      ShallowEnds(bvh, query, below + PushedAt(bvh, query, top), n);
    }
  }

  lemma {:induction false} EndsShallow(bvh: ChunkBoundsBvh, query: Aabb, stack: seq<nat>, turns: nat)
    requires StackAfter(bvh, query, stack, turns) == []
    ensures AllShallow(bvh, query, stack, turns)
    decreases turns
  {
    hide PushedAt;
    if stack != [] {
      var below, top := stack[..|stack| - 1], stack[|stack| - 1];
      var pushed := PushedAt(bvh, query, top);
      EndsShallow(bvh, query, below + pushed, turns - 1);
      StacksJoin(bvh, [], query, turns - 1, below, pushed);
      Settles(bvh, [], query, below, turns - 1);
    }
  }

  /** After some number of turns nothing is left on the stack. */
  ghost predicate SearchEnds(bvh: ChunkBoundsBvh, query: Aabb) {
    exists turns :: StackAfter(bvh, query, [bvh.root], turns) == []
  }

  /** The loop ends exactly when the ways down through meeting boxes are bounded. */
  lemma {:induction false} SearchEndsIff(bvh: ChunkBoundsBvh, query: Aabb)
    ensures SearchEnds(bvh, query) <==> exists n :: Shallow(bvh, query, bvh.root, n)
  {
    if turns :| StackAfter(bvh, query, [bvh.root], turns) == [] {
      EndsShallow(bvh, query, [bvh.root], turns);
      OnlyOne(bvh, [], query, turns, bvh.root);
    }
    if n :| Shallow(bvh, query, bvh.root, n) {
      OnlyOne(bvh, [], query, n, bvh.root);
      ShallowEnds(bvh, query, [bvh.root], n);
    }
  }

  /** A way down from a node through boxes that all meet the query to a leaf that lists chunk `k`. */
  ghost predicate LeadsTo(
      bvh: ChunkBoundsBvh, chunks: seq<CollisionChunk>, query: Aabb, i: nat, path: seq<nat>, k: nat)
    decreases |path|
  {
    if path == [] then k in FoundAt(bvh, chunks, query, i)
    else path[0] in PushedAt(bvh, query, i) && LeadsTo(bvh, chunks, query, path[0], path[1..], k)
  }

  lemma {:induction false} InReachAll(
      bvh: ChunkBoundsBvh, chunks: seq<CollisionChunk>, query: Aabb, n: nat, stack: seq<nat>, k: nat)
    ensures k in ReachAll(bvh, chunks, query, n, stack) <==>
      exists c :: c in stack && k in Reach(bvh, chunks, query, n, c)
  {
    hide Reach;
    if stack != [] {
      var init, last := stack[..|stack| - 1], stack[|stack| - 1];
      InReachAll(bvh, chunks, query, n, init, k);
      assert last in stack && forall c :: c in stack <==> c in init || c == last;
    }
  }

  /** A search that ends, of any hierarchy, sound or not, selects exactly what such ways lead to. */
  lemma {:induction false} ReachIff(
      bvh: ChunkBoundsBvh, chunks: seq<CollisionChunk>, query: Aabb, n: nat, i: nat, k: nat)
    requires Shallow(bvh, query, i, n)
    ensures k in Reach(bvh, chunks, query, n, i) <==> exists path :: LeadsTo(bvh, chunks, query, i, path, k)
  {
    if k in Reach(bvh, chunks, query, n, i) {
      var path := ReachIsLedTo(bvh, chunks, query, n, i, k);
    }
    if path :| LeadsTo(bvh, chunks, query, i, path, k) {
      LedToIsReached(bvh, chunks, query, n, i, path, k);
    }
  }

  lemma {:induction false} ReachIsLedTo(
      bvh: ChunkBoundsBvh, chunks: seq<CollisionChunk>, query: Aabb, n: nat, i: nat, k: nat) returns (path: seq<nat>)
    requires k in Reach(bvh, chunks, query, n, i)
    ensures LeadsTo(bvh, chunks, query, i, path, k)
    decreases n
  {
    hide PushedAt, FoundAt;
    if k in FoundAt(bvh, chunks, query, i) {
      path := [];
    } else {
      var pushed := PushedAt(bvh, query, i);
      InReachAll(bvh, chunks, query, n - 1, pushed, k);
      var child :| child in pushed && k in Reach(bvh, chunks, query, n - 1, child);
      var rest := ReachIsLedTo(bvh, chunks, query, n - 1, child, k);
      path := [child] + rest;
      assert path[1..] == rest;
    }
  }

  lemma {:induction false} LedToIsReached(
      bvh: ChunkBoundsBvh, chunks: seq<CollisionChunk>, query: Aabb, n: nat, i: nat, path: seq<nat>, k: nat)
    requires Shallow(bvh, query, i, n) && LeadsTo(bvh, chunks, query, i, path, k)
    ensures k in Reach(bvh, chunks, query, n, i)
    decreases |path|
  {
    hide PushedAt, FoundAt;
    if path != [] {
      ShallowMember(bvh, query, PushedAt(bvh, query, i), n - 1, path[0]);
      LedToIsReached(bvh, chunks, query, n - 1, path[0], path[1..], k);
      InReachAll(bvh, chunks, query, n - 1, PushedAt(bvh, query, i), k);
    }
  }

  lemma {:induction false} ShallowMember(bvh: ChunkBoundsBvh, query: Aabb, stack: seq<nat>, n: nat, i: nat)
    requires AllShallow(bvh, query, stack, n) && i in stack
    ensures Shallow(bvh, query, i, n)
  {
    hide PushedAt, Shallow;
    if i != stack[|stack| - 1] {
      assert i in stack[..|stack| - 1];
      ShallowMember(bvh, query, stack[..|stack| - 1], n, i);
    }
  }

  // ---------- Built hierarchies ----------

  /** A stored tree is as deep as its height, and the search of it is the tree's own selection. */
  lemma {:induction false} ReachIsSelectTree(
      bvh: ChunkBoundsBvh, chunks: seq<CollisionChunk>, query: Aabb, n: nat, t: Tree)
    requires Stored(bvh.nodes, bvh.leafIndices, t) && n > t.Height()
    ensures Shallow(bvh, query, t.at, n)
    ensures Reach(bvh, chunks, query, n, t.at) == SelectTree(chunks, t, query)
    decreases t
  {
    hide PushedAt, FoundAt, Reach, ReachAll, Shallow, AllShallow;
    BranchPushes(bvh, query, t);
    LeafFinds(bvh, chunks, query, t);
    OneLevel(bvh, chunks, query, n, t.at);
    if t.Branch? && t.box.Intersects(query) {
      ReachIsSelectTree(bvh, chunks, query, n - 1, t.left);
      ReachIsSelectTree(bvh, chunks, query, n - 1, t.right);
      TwoReach(bvh, chunks, query, n - 1, t.left.at, t.right.at);
      Grown(SelectTree(chunks, t, query));
    } else {
      NoneReach(bvh, chunks, query, n - 1);
      Grown(FoundAt(bvh, chunks, query, t.at));
    }
  }

  lemma {:induction false} OneLevel(bvh: ChunkBoundsBvh, chunks: seq<CollisionChunk>, query: Aabb, n: nat, i: nat)
    requires n > 0
    ensures Shallow(bvh, query, i, n) <==> AllShallow(bvh, query, PushedAt(bvh, query, i), n - 1)
    ensures Reach(bvh, chunks, query, n, i)
         == FoundAt(bvh, chunks, query, i) + ReachAll(bvh, chunks, query, n - 1, PushedAt(bvh, query, i))
  {
    hide PushedAt, FoundAt, ReachAll, AllShallow;
  }

  lemma {:induction false} NoneReach(bvh: ChunkBoundsBvh, chunks: seq<CollisionChunk>, query: Aabb, n: nat)
    ensures AllShallow(bvh, query, [], n) && ReachAll(bvh, chunks, query, n, []) == []
  {
  }

  lemma {:induction false} TwoReach(
      bvh: ChunkBoundsBvh, chunks: seq<CollisionChunk>, query: Aabb, n: nat, left: nat, right: nat)
    ensures AllShallow(bvh, query, [left, right], n) <==> Shallow(bvh, query, left, n) && Shallow(bvh, query, right, n)
    ensures ReachAll(bvh, chunks, query, n, [left, right])
         == Reach(bvh, chunks, query, n, right) + Reach(bvh, chunks, query, n, left)
  {
    hide Reach, Visits, Shallow, AllShallow, ReachAll;
    assert [left] + [right] == [left, right];
    StacksJoin(bvh, chunks, query, n, [left], [right]);
    OnlyOne(bvh, chunks, query, n, left);
    OnlyOne(bvh, chunks, query, n, right);
  }

  lemma {:induction false} LeafFinds(bvh: ChunkBoundsBvh, chunks: seq<CollisionChunk>, query: Aabb, t: Tree)
    requires Stored(bvh.nodes, bvh.leafIndices, t)
    ensures FoundAt(bvh, chunks, query, t.at)
         == if t.Leaf? && t.box.Intersects(query) then Matches(chunks, t.ids, query) else []
  {
  }

  lemma {:induction false} BranchPushes(bvh: ChunkBoundsBvh, query: Aabb, t: Tree)
    requires Stored(bvh.nodes, bvh.leafIndices, t)
    ensures PushedAt(bvh, query, t.at) == if t.Branch? && t.box.Intersects(query) then [t.left.at, t.right.at] else []
  {
    if t.Branch? {
      assert [t.left.at] + [t.right.at] == [t.left.at, t.right.at];
    }
  }

  /** On a stored tree, visiting the top of the stack leads to a stack of the same kind, further down. */
  lemma {:induction false} TreeTurn(bvh: ChunkBoundsBvh, query: Aabb, stack: seq<nat>, top: nat, trace: seq<nat>,
                                    p: Pending, bound: nat, height: nat) returns (next: Pending)
    requires OnTree(bvh, stack + [top], trace, p, bound, height)
    ensures OnTree(bvh, stack + PushedAt(bvh, query, top), trace + [top], next, top, height)
  {
    assert (stack + [top])[..|stack|] == stack;
    TopIsStored(bvh, p, bound, height);
    BranchPushes(bvh, query, p.t);
    FallsFurther(trace, |bvh.nodes|, bound, top);
    if p.t.Branch? && p.t.box.Intersects(query) {
      ExpandedOk(bvh, p, bound, height);
      RepresentsExpanded(stack, p);
      next := p.Expanded();
      Appended(stack, [p.t.left.at], [p.t.right.at]);
      assert [p.t.left.at] + [p.t.right.at] == [p.t.left.at, p.t.right.at];
    } else {
      Grown(stack);
      next := p.rest;
    }
  }

  /** A turn more or less at the end of a number of turns. */
  lemma {:induction false} OneMoreTurn(bvh: ChunkBoundsBvh, query: Aabb, stack: seq<nat>, turns: nat)
    ensures StackAfter(bvh, query, stack, turns + 1)
         == StackAfter(bvh, query, StackAfter(bvh, query, stack, turns), 1)
    decreases turns
  {
    hide PushedAt;
    if turns > 0 && stack != [] {
      OneMoreTurn(bvh, query, stack[..|stack| - 1] + PushedAt(bvh, query, stack[|stack| - 1]), turns - 1);
    }
  }

  lemma {:induction false} OneTurn(bvh: ChunkBoundsBvh, query: Aabb, below: seq<nat>, top: nat)
    ensures StackAfter(bvh, query, below + [top], 1) == below + PushedAt(bvh, query, top)
  {
    hide PushedAt;
    assert (below + [top])[..|below|] == below;
    var next := below + PushedAt(bvh, query, top);
    assert StackAfter(bvh, query, next, 0) == next;
  }

  lemma {:induction false} NothingAfterTheEnd(bvh: ChunkBoundsBvh, query: Aabb, stack: seq<nat>, end: nat, turns: nat)
    requires StackAfter(bvh, query, stack, end) == [] && end <= turns
    ensures StackAfter(bvh, query, stack, turns) == []
    decreases turns
  {
    if end < turns {
      NothingAfterTheEnd(bvh, query, stack, end, turns - 1);
      OneMoreTurn(bvh, query, stack, turns - 1);
    }
  }

  /** The stack was never higher than `deepest`, up to a turn. */
  ghost predicate NeverHigher(bvh: ChunkBoundsBvh, query: Aabb, turns: nat, deepest: nat) {
    forall k: nat :: k <= turns ==> |StackAfter(bvh, query, [bvh.root], k)| <= deepest
  }

  lemma {:induction false} HigherByOneTurn(bvh: ChunkBoundsBvh, query: Aabb, turns: nat, deepest: nat,
      below: seq<nat>, top: nat, next: seq<nat>)
    requires NeverHigher(bvh, query, turns, deepest)
    requires StackAfter(bvh, query, [bvh.root], turns) == below + [top]
    requires next == below + PushedAt(bvh, query, top)
    ensures StackAfter(bvh, query, [bvh.root], turns + 1) == next
    ensures NeverHigher(bvh, query, turns + 1, if |next| > deepest then |next| else deepest)
  {
    hide StackAfter, PushedAt;
    OneMoreTurn(bvh, query, [bvh.root], turns);
    OneTurn(bvh, query, below, top);
  }

  // ---------- The query ----------

  /**
   * Whenever the search ends, on whatever hierarchy, the query selects what its root reaches. On a built one it
   * always ends, and selects exactly the chunks that meet the query, each once; nodes are popped at most once
   * each, in falling order, and the stack stays logarithmic in the number of chunks.
   */
  method SelectIntersecting(bvh: ChunkBoundsBvh, chunks: seq<CollisionChunk>, query: Aabb, ghost n: nat)
    returns (selected: seq<nat>, ghost trace: seq<nat>, ghost deepest: nat)
    requires bvh.nodes == [] || chunks == [] || Shallow(bvh, query, bvh.root, n)
    ensures bvh.nodes == [] || chunks == [] ==> selected == []
    ensures bvh.nodes != [] && chunks != [] ==>
      selected == Reach(bvh, chunks, query, n, bvh.root) && |trace| == Visits(bvh, query, n, bvh.root)
    ensures Built(bvh, chunks) ==> multiset(selected) == multiset(BruteForce(chunks, query))
    ensures Built(bvh, chunks) ==> Descending(trace) && forall i :: 0 <= i < |trace| ==> trace[i] < |bvh.nodes|
    ensures Built(bvh, chunks) ==> deepest <= 1 || Pow2(deepest) < |chunks|
    ensures bvh.nodes != [] && chunks != [] ==>
      forall turns: nat :: |StackAfter(bvh, query, [bvh.root], turns)| <= deepest
  {
    if bvh.nodes == [] || chunks == [] {
      selected, trace, deepest := [], [], 0;
      BuiltIsNotEmpty(bvh, chunks);
      return;
    }
    ghost var built := Built(bvh, chunks);
    ghost var t := if built then var t :| BuiltAs(bvh, chunks, t); t else Leaf(0, bvh.nodes[0].bounds, 0, []);
    if built {
      StartOk(bvh, chunks, t);
    }
    selected, trace, deepest := Search(bvh, chunks, query, n, built, Next(t, Done), t.Height());
    if built {
      FallingDescends(trace, |bvh.nodes|, 0);
      BuiltReach(bvh, chunks, query, n, t);
      StackDepth(bvh, chunks, t, deepest);
    }
  }

  lemma {:induction false} BuiltReach(bvh: ChunkBoundsBvh, chunks: seq<CollisionChunk>, query: Aabb, n: nat, t: Tree)
    requires BuiltAs(bvh, chunks, t) && Shallow(bvh, query, bvh.root, n)
    ensures multiset(Reach(bvh, chunks, query, n, bvh.root)) == multiset(BruteForce(chunks, query))
  {
    var m := if n > t.Height() then n else t.Height() + 1;
    SettlesUpTo(bvh, chunks, query, bvh.root, n, m);
    ReachIsSelectTree(bvh, chunks, query, m, t);
    SelectIsBruteForce(bvh, chunks, t, query);
  }

  lemma {:induction false} SettlesUpTo(
      bvh: ChunkBoundsBvh, chunks: seq<CollisionChunk>, query: Aabb, i: nat, n: nat, m: nat)
    requires Shallow(bvh, query, i, n) && n <= m
    ensures Shallow(bvh, query, i, m) && Reach(bvh, chunks, query, m, i) == Reach(bvh, chunks, query, n, i)
    decreases m
  {
    hide Shallow, Reach;
    if n < m {
      SettlesUpTo(bvh, chunks, query, i, n, m - 1);
      NodeSettles(bvh, chunks, query, i, m - 1);
    }
  }

  lemma {:induction false} BuiltIsShallow(bvh: ChunkBoundsBvh, chunks: seq<CollisionChunk>, query: Aabb)
    returns (n: nat)
    requires Built(bvh, chunks)
    ensures Shallow(bvh, query, bvh.root, n)
  {
    var t :| BuiltAs(bvh, chunks, t);
    n := t.Height() + 1;
    ReachIsSelectTree(bvh, chunks, query, n, t);
  }

  /** The loop over the explicit stack; `onTree` says whether the arrays store the tree in `start`. */
  method Search(bvh: ChunkBoundsBvh, chunks: seq<CollisionChunk>, query: Aabb, ghost n: nat,
                ghost onTree: bool, ghost start: Pending, ghost height: nat)
    returns (selected: seq<nat>, ghost trace: seq<nat>, ghost deepest: nat)
    requires Shallow(bvh, query, bvh.root, n)
    requires onTree ==> OnTree(bvh, [bvh.root], [], start, |bvh.nodes|, height)
    ensures selected == Reach(bvh, chunks, query, n, bvh.root) && |trace| == Visits(bvh, query, n, bvh.root)
    ensures onTree ==> Falls(trace, |bvh.nodes|, 0) && deepest <= height + 1
    ensures forall turns: nat :: |StackAfter(bvh, query, [bvh.root], turns)| <= deepest
  {
    hide StackAfter, NeverHigher, Shallow, AllShallow, FoundAt, PushedAt;
    var stack := [bvh.root];
    ghost var pending := start;
    ghost var bound: nat := |bvh.nodes|;
    ghost var all := Reach(bvh, chunks, query, n, bvh.root);
    selected, trace, deepest := [], [], 1;
    OnlyOne(bvh, chunks, query, n, bvh.root);
    Grown(all);
    FirstStack(bvh, query);
    while stack != []
      invariant stack == StackAfter(bvh, query, [bvh.root], |trace|)
      invariant NeverHigher(bvh, query, |trace|, deepest)
      invariant AllShallow(bvh, query, stack, n)
      invariant selected + ReachAll(bvh, chunks, query, n, stack) == all
      invariant |trace| + VisitsOfAll(bvh, query, n, stack) == Visits(bvh, query, n, bvh.root)
      invariant onTree ==> OnTree(bvh, stack, trace, pending, bound, height)
      invariant onTree ==> deepest <= height + 1
      decreases VisitsOfAll(bvh, query, n, stack)
    {
      var top, below := stack[|stack| - 1], stack[..|stack| - 1];
      assert stack == below + [top];
      VisitReaches(bvh, chunks, query, n, below, top);
      if onTree {
        pending := TreeTurn(bvh, query, below, top, trace, pending, bound, height);
        StackWithin(bvh, below + PushedAt(bvh, query, top), pending, top, height);
      }
      HigherByOneTurn(bvh, query, |trace|, deepest, below, top, below + PushedAt(bvh, query, top));
      bound, trace := top, trace + [top];
      var found;
      stack, found := VisitNode(bvh, chunks, query, top, below);
      Appended(selected, found, ReachAll(bvh, chunks, query, n, stack));
      selected := selected + found;
      deepest := if |stack| > deepest then |stack| else deepest;
    }
    Grown(selected);
    NeverHigherAtAll(bvh, query, |trace|, deepest);
    if onTree {
      FallsFromZero(trace, |bvh.nodes|, bound);
    }
  }

  lemma {:induction false} FirstStack(bvh: ChunkBoundsBvh, query: Aabb)
    ensures StackAfter(bvh, query, [bvh.root], 0) == [bvh.root] && NeverHigher(bvh, query, 0, 1)
  {
  }

  lemma {:induction false} NeverHigherAtAll(bvh: ChunkBoundsBvh, query: Aabb, end: nat, deepest: nat)
    requires NeverHigher(bvh, query, end, deepest) && StackAfter(bvh, query, [bvh.root], end) == []
    ensures forall turns: nat :: |StackAfter(bvh, query, [bvh.root], turns)| <= deepest
  {
    hide StackAfter;
    forall turns: nat
      ensures |StackAfter(bvh, query, [bvh.root], turns)| <= deepest
    {
      if turns > end {
        NothingAfterTheEnd(bvh, query, [bvh.root], end, turns);
      }
    }
  }

  /** One turn of the loop, after the top of the stack was popped. */
  method VisitNode(bvh: ChunkBoundsBvh, chunks: seq<CollisionChunk>, query: Aabb, nodeIndex: nat, stack: seq<nat>)
    returns (pushed: seq<nat>, found: seq<nat>)
    ensures found == FoundAt(bvh, chunks, query, nodeIndex)
    ensures pushed == stack + PushedAt(bvh, query, nodeIndex)
  {
    pushed, found := stack, [];
    Grown(stack);
    if nodeIndex >= |bvh.nodes| || !bvh.nodes[nodeIndex].bounds.Intersects(query) {
      return;
    }
    var node := bvh.nodes[nodeIndex];
    if node.leaf.Some? {
      var start, end := node.leaf.value.first, node.leaf.value.first + node.leaf.value.count;
      if end <= |bvh.leafIndices| {
        found := ScanLeaf(chunks, bvh.leafIndices[start..end], query);
      }
    } else {
      pushed := PushChildren(stack, node);
    }
  }

  method PushChildren(stack: seq<nat>, node: BvhNode) returns (pushed: seq<nat>)
    ensures pushed == stack + Children(node)
  {
    pushed := stack;
    if node.left.Some? {
      pushed := pushed + [node.left.value];
    }
    if node.right.Some? {
      pushed := pushed + [node.right.value];
    }
  }

  lemma {:induction false} StackWithin(bvh: ChunkBoundsBvh, stack: seq<nat>, p: Pending, bound: nat, height: nat)
    requires Represents(stack, p) && PendingOk(bvh, p, bound, height)
    ensures |stack| <= height + 1
  {
    RepresentsLength(stack, p);
  }

  lemma {:induction false} BuiltIsNotEmpty(bvh: ChunkBoundsBvh, chunks: seq<CollisionChunk>)
    ensures Built(bvh, chunks) ==> bvh.nodes != [] && chunks != []
  {
    if Built(bvh, chunks) {
      var t :| BuiltAs(bvh, chunks, t);
      BalancedBounds(t);
      SameLength(t.Items(), Indices(|chunks|));
    }
  }

  lemma {:induction false} StackDepth(bvh: ChunkBoundsBvh, chunks: seq<CollisionChunk>, t: Tree, deepest: nat)
    requires BuiltAs(bvh, chunks, t) && deepest <= t.Height() + 1
    ensures deepest <= 1 || Pow2(deepest) < |chunks|
  {
    BuiltShape(bvh, chunks, t);
    Pow2Monotone(deepest, t.Height() + 1);
  }

  /** The inner loop over one leaf. References past the chunk list are skipped. */
  method ScanLeaf(chunks: seq<CollisionChunk>, refs: seq<nat>, query: Aabb) returns (found: seq<nat>)
    ensures found == Matches(chunks, refs, query)
  {
    found := [];
    for i := 0 to |refs|
      invariant found == Matches(chunks, refs[..i], query)
    {
      assert refs[..i + 1][..i] == refs[..i];
      if refs[i] < |chunks| && chunks[refs[i]].Bounds().Intersects(query) {
        found := found + [refs[i]];
      }
    }
    assert refs[..|refs|] == refs;
  }
}
