/** The level dependency graph: a depth-first search that must find every level and every cycle. */
module LevelGraph {
  import opened Results
  import opened Sorting
  import opened Text

  datatype AssetKey = AssetKey(namespace: string, kind: string, path: string)
  {
    function Canonical(): string { namespace + ":" + kind + "/" + path }

    predicate IsLevel() { namespace == "engine" && kind == "level" }

    /** What parsing a key guarantees about its separators. */
    predicate Parsed() { ':' !in namespace && '/' !in kind }
  }

  predicate KeyLe(a: AssetKey, b: AssetKey) { LexLe(a.Canonical(), b.Canonical()) }

  /** Comparing canonical names, as the search does, is the same as comparing keys. */
  lemma {:induction false} CanonicalIdentifies(a: AssetKey, b: AssetKey)
    requires a.Parsed() && b.Parsed()
    ensures a.Canonical() == b.Canonical() <==> a == b
  {
    if a.Canonical() == b.Canonical() {
      var restA, restB := a.kind + "/" + a.path, b.kind + "/" + b.path;
      assert a.Canonical() == a.namespace + ([':'] + restA);
      assert b.Canonical() == b.namespace + ([':'] + restB);
      FirstSeparator(a.namespace, restA, b.namespace, restB, ':');
      assert restA == a.kind + (['/'] + a.path) && restB == b.kind + (['/'] + b.path);
      FirstSeparator(a.kind, a.path, b.kind, b.path, '/');
    }
  }

  lemma {:induction false} FirstSeparator(a: string, restA: string, b: string, restB: string, separator: char)
    requires separator !in a && separator !in b
    requires a + ([separator] + restA) == b + ([separator] + restB)
    ensures a == b && restA == restB
  {
    var s, t := a + ([separator] + restA), b + ([separator] + restB);
    assert s[0] == t[0];
    if a == [] || b == [] {
      assert a == b == [];
      assert restA == s[1..] && restB == t[1..];
    } else {
      assert s[1..] == a[1..] + ([separator] + restA) && t[1..] == b[1..] + ([separator] + restB);
      FirstSeparator(a[1..], restA, b[1..], restB, separator);
    }
  }

  /** The manifests that can be resolved and read, with their dependencies in file order. */
  type Manifests = map<AssetKey, seq<AssetKey>>

  datatype Node = Node(key: AssetKey, dependencies: seq<AssetKey>)

  datatype LevelError = Unavailable(key: AssetKey) | Cycle(path: seq<AssetKey>)

  datatype Graph = Graph(root: AssetKey, nodes: map<AssetKey, Node>)

  // ----- Paths -----

  /** What counts as a dependency: a key of the manifest of kind `level` in the namespace `engine`. */
  lemma {:induction false} EdgeIff(m: Manifests, a: AssetKey, b: AssetKey)
    ensures Edge(m, a, b) <==> a in m && b in m[a] && b.namespace == "engine" && b.kind == "level"
  {
  }

  predicate Edge(m: Manifests, a: AssetKey, b: AssetKey) {
    a in m && b in m[a] && b.IsLevel()
  }

  ghost predicate IsPath(m: Manifests, p: seq<AssetKey>) {
    p != [] && forall i :: 0 <= i < |p| - 1 ==> Edge(m, p[i], p[i + 1])
  }

  ghost predicate PathFrom(m: Manifests, a: AssetKey, p: seq<AssetKey>, b: AssetKey) {
    IsPath(m, p) && p[0] == a && p[|p| - 1] == b
  }

  ghost predicate Reaches(m: Manifests, a: AssetKey, b: AssetKey) {
    exists p :: PathFrom(m, a, p, b)
  }

  /** A dependency path that comes back to where it started. */
  ghost predicate IsCycle(m: Manifests, p: seq<AssetKey>) {
    IsPath(m, p) && |p| >= 2 && p[0] == p[|p| - 1]
  }

  /** Every level the root depends on has a usable manifest, and none depends on itself. */
  ghost predicate Buildable(m: Manifests, root: AssetKey) {
    && (forall k :: Reaches(m, root, k) ==> k in m)
    && (forall p :: IsCycle(m, p) ==> !Reaches(m, root, p[0]))
  }

  lemma {:induction false} ReachesSelf(m: Manifests, a: AssetKey)
    ensures Reaches(m, a, a)
  {
    assert PathFrom(m, a, [a], a);
  }

  lemma {:induction false} ReachesStep(m: Manifests, a: AssetKey, b: AssetKey, c: AssetKey)
    requires Reaches(m, a, b) && Edge(m, b, c)
    ensures Reaches(m, a, c)
  {
    var p :| PathFrom(m, a, p, b);
    assert PathFrom(m, a, p + [c], c);
  }

  lemma {:induction false} SuffixIsPath(m: Manifests, p: seq<AssetKey>, n: nat)
    requires IsPath(m, p) && n < |p|
    ensures IsPath(m, p[n..])
  {
    forall j | 0 <= j < |p[n..]| - 1
      ensures Edge(m, p[n..][j], p[n..][j + 1])
    {
      assert Edge(m, p[n + j], p[n + j + 1]);
    }
  }

  lemma {:induction false} ExtendedIsPath(m: Manifests, p: seq<AssetKey>, key: AssetKey)
    requires IsPath(m, p) && Edge(m, p[|p| - 1], key)
    ensures IsPath(m, p + [key])
  {
    forall j | 0 <= j < |p|
      ensures Edge(m, (p + [key])[j], (p + [key])[j + 1])
    {
      if j < |p| - 1 {
        assert Edge(m, p[j], p[j + 1]);
      }
    }
  }

  // ----- The stack of levels being visited -----

  /** Where a level next on the stack comes from. */
  predicate Entering(m: Manifests, root: AssetKey, stack: seq<AssetKey>, key: AssetKey) {
    if stack == [] then key == root else Edge(m, stack[|stack| - 1], key)
  }

  /** The stack is a path from the root without repetition. */
  ghost predicate StackOk(m: Manifests, root: AssetKey, stack: seq<AssetKey>) {
    stack == [] || (
      var init, last := stack[..|stack| - 1], stack[|stack| - 1];
      StackOk(m, root, init) && Entering(m, root, init, last) && last !in init
    )
  }

  lemma {:induction false} StackIsPath(m: Manifests, root: AssetKey, stack: seq<AssetKey>)
    requires StackOk(m, root, stack) && stack != []
    ensures IsPath(m, stack) && stack[0] == root
  {
    var init, last := stack[..|stack| - 1], stack[|stack| - 1];
    if init != [] {
      StackIsPath(m, root, init);
      ExtendedIsPath(m, init, last);
      assert stack == init + [last];
    }
  }

  lemma {:induction false} StackReached(m: Manifests, root: AssetKey, stack: seq<AssetKey>, i: nat)
    requires StackOk(m, root, stack) && i < |stack|
    ensures Reaches(m, root, stack[i])
  {
    if i < |stack| - 1 {
      StackReached(m, root, stack[..|stack| - 1], i);
    } else {
      StackIsPath(m, root, stack);
      assert PathFrom(m, root, stack, stack[i]);
    }
  }

  lemma {:induction false} EnteringIsReached(m: Manifests, root: AssetKey, stack: seq<AssetKey>, key: AssetKey)
    requires StackOk(m, root, stack) && Entering(m, root, stack, key)
    ensures Reaches(m, root, key)
  {
    if stack == [] {
      ReachesSelf(m, root);
    } else {
      StackReached(m, root, stack, |stack| - 1);
      ReachesStep(m, root, stack[|stack| - 1], key);
    }
  }

  /** A level met again on the stack closes a cycle. */
  lemma {:induction false} CycleFound(m: Manifests, root: AssetKey, stack: seq<AssetKey>, pos: nat, key: AssetKey)
    requires StackOk(m, root, stack) && Entering(m, root, stack, key) && pos < |stack| && stack[pos] == key
    ensures Explains(m, root, Cycle(stack[pos..] + [key]))
  {
    StackIsPath(m, root, stack);
    SuffixIsPath(m, stack, pos);
    ExtendedIsPath(m, stack[pos..], key);
    StackReached(m, root, stack, pos);
  }

  /** An error names a reachable level that is not available, or a real dependency cycle. */
  ghost predicate Explains(m: Manifests, root: AssetKey, error: LevelError) {
    match error
    case Unavailable(key) => Reaches(m, root, key) && key !in m
    case Cycle(path) => IsCycle(m, path) && Reaches(m, root, path[0])
  }

  // ----- The levels that are finished, in the order in which they finished -----

  ghost predicate DependenciesIn(m: Manifests, key: AssetKey, done: seq<AssetKey>) {
    forall d :: Edge(m, key, d) ==> d in done
  }

  /** Each is usable and reachable, and all it depends on finished before it. */
  ghost predicate FinishedOk(m: Manifests, root: AssetKey, order: seq<AssetKey>) {
    order == [] || (
      var init, last := order[..|order| - 1], order[|order| - 1];
      && FinishedOk(m, root, init)
      && last in m && last !in init
      && Reaches(m, root, last)
      && DependenciesIn(m, last, init)
    )
  }

  lemma {:induction false} FinishedAt(m: Manifests, root: AssetKey, order: seq<AssetKey>, i: nat)
    requires FinishedOk(m, root, order) && i < |order|
    ensures order[i] in m && order[i] !in order[..i] && Reaches(m, root, order[i])
    ensures DependenciesIn(m, order[i], order[..i])
  {
    var init := order[..|order| - 1];
    if i < |order| - 1 {
      FinishedAt(m, root, init, i);
      assert init[..i] == order[..i];
    }
  }

  /** A path from a finished level only goes through levels that finished before it. */
  lemma {:induction false} PathsGoBack(m: Manifests, root: AssetKey, order: seq<AssetKey>, p: seq<AssetKey>, i: nat)
    requires FinishedOk(m, root, order) && i < |order| && IsPath(m, p) && p[0] == order[i]
    ensures |p| == 1 || p[|p| - 1] in order[..i]
    decreases |p|
  {
    if |p| >= 2 {
      FinishedAt(m, root, order, i);
      assert Edge(m, p[0], p[1]);
      assert p[1] in order[..i];
      var j :| 0 <= j < i && order[..i][j] == p[1];
      SuffixIsPath(m, p, 1);
      PathsGoBack(m, root, order, p[1..], j);
      assert order[j] in order[..i];
      assert forall k :: k in order[..j] ==> k in order[..i];
    }
  }

  /** A finished search has seen exactly what the root reaches, and no cycle is there. */
  lemma {:induction false} FinishedMeansBuildable(m: Manifests, root: AssetKey, order: seq<AssetKey>)
    requires FinishedOk(m, root, order) && root in order
    ensures Buildable(m, root)
    ensures forall k :: k in order <==> Reaches(m, root, k)
  {
    var r :| 0 <= r < |order| && order[r] == root;
    forall k | Reaches(m, root, k)
      ensures k in order && k in m
    {
      var p :| PathFrom(m, root, p, k);
      PathsGoBack(m, root, order, p, r);
      var i :| 0 <= i < |order| && order[i] == k;
      FinishedAt(m, root, order, i);
    }
    forall k | k in order
      ensures Reaches(m, root, k)
    {
      var i :| 0 <= i < |order| && order[i] == k;
      FinishedAt(m, root, order, i);
    }
    forall p | IsCycle(m, p)
      ensures !Reaches(m, root, p[0])
    {
      if Reaches(m, root, p[0]) {
        var i :| 0 <= i < |order| && order[i] == p[0];
        PathsGoBack(m, root, order, p, i);
        FinishedAt(m, root, order, i);
      }
    }
  }

  /** The node of a level lists its dependencies in the order of their names. */
  function NodeOf(m: Manifests, key: AssetKey): Node
    requires key in m
  {
    Node(key, Sort(m[key], KeyLe))
  }

  /** The dependencies of a node are those of the manifest, in the order of their canonical names. */
  lemma {:induction false} NodeDependenciesSorted(m: Manifests, key: AssetKey)
    requires key in m
    ensures Sorted(NodeOf(m, key).dependencies, KeyLe)
    ensures var deps := NodeOf(m, key).dependencies;
      forall i, j :: 0 <= i < j < |deps| ==> LexLe(deps[i].Canonical(), deps[j].Canonical())
    ensures multiset(NodeOf(m, key).dependencies) == multiset(m[key])
  {
    forall a: AssetKey, b: AssetKey
      ensures KeyLe(a, b) || KeyLe(b, a)
    {
      LexTotal(a.Canonical(), b.Canonical());
    }
    forall a: AssetKey, b: AssetKey, c: AssetKey | KeyLe(a, b) && KeyLe(b, c)
      ensures KeyLe(a, c)
    {
      LexTransitive(a.Canonical(), b.Canonical(), c.Canonical());
    }
    SortSorts(m[key], KeyLe);
  }

  function NodesOf(m: Manifests, keys: set<AssetKey>): map<AssetKey, Node> {
    map k | k in keys && k in m :: NodeOf(m, k)
  }

  ghost predicate FinishedUpTo(deps: seq<AssetKey>, n: nat, visited: set<AssetKey>)
    requires n <= |deps|
  {
    forall j :: 0 <= j < n && deps[j].IsLevel() ==> deps[j] in visited
  }

  lemma {:induction false} FinishedOneMore(deps: seq<AssetKey>, n: nat, before: set<AssetKey>, after: set<AssetKey>)
    requires n < |deps| && FinishedUpTo(deps, n, before) && before <= after
    requires deps[n].IsLevel() ==> deps[n] in after
    ensures FinishedUpTo(deps, n + 1, after)
  {
  }

  lemma {:induction false} AllDependenciesFinished(m: Manifests, key: AssetKey, order: seq<AssetKey>)
    requires key in m && FinishedUpTo(NodeOf(m, key).dependencies, |m[key]|, Elements(order))
    ensures DependenciesIn(m, key, order)
  {
    forall d | Edge(m, key, d)
      ensures d in order
    {
      assert d in multiset(m[key]);
      assert d in multiset(NodeOf(m, key).dependencies);
    }
  }

  lemma {:induction false} SortedMembers(keys: seq<AssetKey>, i: nat)
    requires i < |Sort(keys, KeyLe)|
    ensures Sort(keys, KeyLe)[i] in keys
  {
    assert Sort(keys, KeyLe)[i] in multiset(Sort(keys, KeyLe));
  }

  // ----- The search -----

  function Elements(s: seq<AssetKey>): set<AssetKey> { set k | k in s }

  lemma {:induction false} ElementsAppend(s: seq<AssetKey>, key: AssetKey)
    ensures Elements(s + [key]) == Elements(s) + {key}
  {
  }

  lemma {:induction false} SetsAfterLeaving(visited: set<AssetKey>, below: seq<AssetKey>, key: AssetKey)
    requires visited !! Elements(below + [key]) && key !in below
    ensures visited + {key} !! Elements(below)
    ensures visited + {key} + Elements(below) == visited + Elements(below + [key])
    ensures key !in visited
  {
    ElementsAppend(below, key);
    assert key in Elements(below + [key]);
  }

  /** What holds of the search at every point: the stack, the finished levels and the recorded nodes agree. */
  ghost predicate SearchOk(manifests: Manifests, root: AssetKey, visiting: seq<AssetKey>, visited: set<AssetKey>,
                           order: seq<AssetKey>, nodes: map<AssetKey, Node>) {
    && StackOk(manifests, root, visiting)
    && FinishedOk(manifests, root, order)
    && visited == Elements(order)
    && visited !! Elements(visiting)
    && nodes == NodesOf(manifests, visited + Elements(visiting))
  }

  lemma {:induction false} LeavingKeeps(manifests: Manifests, root: AssetKey, below: seq<AssetKey>, key: AssetKey,
      visited: set<AssetKey>, order: seq<AssetKey>, nodes: map<AssetKey, Node>)
    requires SearchOk(manifests, root, below + [key], visited, order, nodes)
    requires key in manifests && DependenciesIn(manifests, key, order)
    ensures SearchOk(manifests, root, below, visited + {key}, order + [key], nodes)
  {
    var visiting := below + [key];
    assert visiting[..|below|] == below && visiting[|below|] == key;
    StackReached(manifests, root, visiting, |below|);
    ElementsAppend(order, key);
    assert (order + [key])[..|order|] == order;
    SetsAfterLeaving(visited, below, key);
  }

  lemma {:induction false} EnteringKeeps(manifests: Manifests, root: AssetKey, below: seq<AssetKey>, key: AssetKey,
      visited: set<AssetKey>, order: seq<AssetKey>, nodes: map<AssetKey, Node>)
    requires SearchOk(manifests, root, below, visited, order, nodes) && Entering(manifests, root, below, key)
    requires key in manifests && key !in visited && key !in below
    ensures SearchOk(manifests, root, below + [key], visited, order, nodes[key := NodeOf(manifests, key)])
  {
    hide NodeOf;
    assert (below + [key])[..|below|] == below;
    ElementsAppend(below, key);
  }

  class GraphBuilder {
    const manifests: Manifests
    const root: AssetKey
    var nodes: map<AssetKey, Node>
    var visiting: seq<AssetKey>
    var visited: set<AssetKey>
    /** The finished levels in the order in which they finished. */
    ghost var order: seq<AssetKey>

    constructor (manifests: Manifests, root: AssetKey)
      ensures this.manifests == manifests && this.root == root
      ensures Valid() && nodes == map[] && visiting == [] && visited == {}
    {
      this.manifests, this.root := manifests, root;
      nodes, visiting, visited, order := map[], [], {}, [];
    }

    ghost predicate Valid()
      reads this
    {
      SearchOk(manifests, root, visiting, visited, order, nodes)
    }

    /** Position of a level on the stack. */
    method Position(key: AssetKey) returns (pos: Option<nat>)
      ensures pos.None? ==> key !in visiting
      ensures pos.Some? ==> pos.value < |visiting| && visiting[pos.value] == key
    {
      var i := 0;
      while i < |visiting|
        invariant i <= |visiting|
        invariant key !in visiting[..i]
      {
        if visiting[i] == key {
          return Some(i);
        }
        i := i + 1;
      }
      assert visiting[..i] == visiting;
      return None;
    }

    /** Pushes a level and records its node. */
    method Enter(key: AssetKey)
      requires Valid() && Entering(manifests, root, visiting, key)
      requires key in manifests && key !in visited && key !in visiting
      modifies this`visiting, this`nodes
      ensures Valid() && visiting == old(visiting) + [key]
    {
      EnteringKeeps(manifests, root, visiting, key, visited, order, nodes);
      visiting := visiting + [key];
      nodes := nodes[key := NodeOf(manifests, key)];
    }

    /** Pops the level on top of the stack once everything it depends on is finished. */
    method Leave(key: AssetKey, ghost below: seq<AssetKey>)
      requires Valid() && visiting == below + [key] && key in manifests
      requires DependenciesIn(manifests, key, order)
      modifies this`visiting, this`visited, this`order
      ensures Valid() && visiting == below && visited == old(visited) + {key}
    {
      assert visiting[..|visiting| - 1] == below;
      LeavingKeeps(manifests, root, below, key, visited, order, nodes);
      order := order + [key];
      visited := visited + {key};
      visiting := visiting[..|visiting| - 1];
    }

    /**
     * Visits a level below the top of the stack. It succeeds with the level and all it depends on finished,
     * or fails with an explanation.
     */
    method Visit(key: AssetKey) returns (result: Result<(), LevelError>)
      requires Valid() && Entering(manifests, root, visiting, key)
      modifies this
      ensures result.Ok? ==> Valid() && key in visited && old(visited) <= visited && visiting == old(visiting)
      ensures result.Err? ==> Explains(manifests, root, result.error)
      decreases manifests.Keys - Elements(visiting)
    {
      EnteringIsReached(manifests, root, visiting, key);
      if key in visited {
        return Ok(());
      }
      var pos := Position(key);
      if pos.Some? {
        CycleFound(manifests, root, visiting, pos.value, key);
        return Err(Cycle(visiting[pos.value..] + [key]));
      }
      if key !in manifests {
        visiting := visiting + [key];
        return Err(Unavailable(key));
      }
      ghost var below := visiting;
      Enter(key);
      result := VisitAll(key, below);
      if result.Ok? {
        AllDependenciesFinished(manifests, key, order);
        Leave(key, below);
      }
    }

    /** The loop over the dependencies of the level on top of the stack. */
    method VisitAll(key: AssetKey, ghost below: seq<AssetKey>) returns (result: Result<(), LevelError>)
      requires Valid() && key in manifests && visiting == below + [key] && key !in below
      modifies this
      ensures result.Ok? ==> Valid() && old(visited) <= visited && visiting == old(visiting)
      ensures result.Ok? ==> FinishedUpTo(NodeOf(manifests, key).dependencies, |manifests[key]|, visited)
      ensures result.Err? ==> Explains(manifests, root, result.error)
      decreases manifests.Keys - Elements(below), 0
    {
      var deps := NodeOf(manifests, key).dependencies;
      var i := 0;
      while i < |deps|
        invariant i <= |deps| && Valid() && visiting == below + [key] && old(visited) <= visited
        invariant FinishedUpTo(deps, i, visited)
      {
        ghost var before := visited;
        if deps[i].IsLevel() {
          SortedMembers(manifests[key], i);
          ElementsAppend(below, key);
          result := Visit(deps[i]);
          if result.Err? {
            return;
          }
        }
        FinishedOneMore(deps, i, before, visited);
        i := i + 1;
      }
      return Ok(());
    }
  }

  /**
   * The graph of a root: it is built exactly when every level the root reaches is available and none is on a
   * cycle, and then holds exactly those levels; otherwise the error names one that is missing, or a cycle.
   */
  method BuildLevelGraph(m: Manifests, root: AssetKey) returns (result: Result<Graph, LevelError>)
    ensures result.Ok? <==> Buildable(m, root)
    ensures result.Ok? ==>
      && result.value.root == root
      && (forall k :: k in result.value.nodes <==> Reaches(m, root, k))
      && (forall k :: k in result.value.nodes ==> k in m && result.value.nodes[k] == NodeOf(m, k))
    ensures result.Err? ==> Explains(m, root, result.error)
  {
    var builder := new GraphBuilder(m, root);
    var visited := builder.Visit(root);
    if visited.Err? {
      return Err(visited.error);
    }
    FinishedMeansBuildable(m, root, builder.order);
    return Ok(Graph(root, builder.nodes));
  }
}
