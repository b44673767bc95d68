/** The customizable walk over a level index: a depth-first descent that,
    at every depth below the number of supplied level values, lets the
    greedy or the fast node inspector choose which children to enter,
    and that stops at the depth equal to the number of level values,
    where the node reached is itself the result.

    The two inspectors and the leaf-values extractor are not part of this
    model. An inspector is represented by what it decides: given the
    current node, the level value, the depth and the walker's matcher and
    type for that depth, the keys of the children it descends into, in
    visiting order; descending into a child is the walker's own
    `inspect(child, depth + 1)`, realised here by Descend. */
module LevelIndexWalk {
  import opened Plugins

  /** A node of the level index: children by level value (the wildcard
      branch is the key "*") and the values stored at the node. */
  datatype LevelNode<T> = LevelNode(children: map<string, LevelNode<T>>, leafList: seq<T>)

  /** A level index: its level count, its per-depth type and its root. */
  datatype LevelIndex<T> = LevelIndex(levelCount: nat, typeAt: nat -> ValueType, root: LevelNode<T>)

  /** The traversal configuration the walker consults: per depth, whether
      to inspect greedily, and the matcher in effect. */
  datatype IndexTraversalConfig = IndexTraversalConfig(greedy: nat -> bool, effectiveMatcher: nat -> Matcher)

  /** A node inspector: the keys of the children of the node it enters. */
  type LevelNodeInspector<!T> = (LevelNode<T>, string, nat, Matcher, ValueType) -> seq<string>

  /** What the walker hands an extractor about itself. Every query the walker
      answers (its index depth, level values, matchers, types and the
      configuration's descriptors) depends on these three alone. */
  datatype WalkerView<T> = WalkerView(overrides: IndexTraversalConfig, index: LevelIndex<T>, levelValues: seq<string>)

  /** A leaf-values extractor: given the calling walker, turns the reached
      nodes into the result list. */
  type LevelLeafValuesExtractor<!T> = (WalkerView<T>, seq<LevelNode<T>>) -> seq<T>

  datatype CustomizableLevelIndexWalker<!T> = CustomizableLevelIndexWalker(
    fastNodeInspector: LevelNodeInspector<T>,
    greedyNodeInspector: LevelNodeInspector<T>,
    overrides: IndexTraversalConfig,
    levelLeafValuesExtractor: LevelLeafValuesExtractor<T>,
    index: LevelIndex<T>,
    levelValues: seq<string>)
  {
    /** The values found: the extractor, given this walker, applied to the
        nodes reached from the root. */
    function Find(): seq<T>
    {
      levelLeafValuesExtractor(View(), Inspect(index.root, 0))
    }

    function View(): WalkerView<T>
    {
      WalkerView(overrides, index, levelValues)
    }

    /** The depth of the index walked, which may differ from the number of level values. */
    function IndexDepth(): nat
    {
      index.levelCount
    }

    function Inspect(currentNode: LevelNode<T>, depth: nat): seq<LevelNode<T>>
      decreases |levelValues| - depth, 0
    {
      if depth >= |levelValues| then [currentNode]
      else Descend(currentNode, Chosen(currentNode, depth), depth)
    }

    /** The keys the inspector for this depth chooses at this node. */
    function Chosen(currentNode: LevelNode<T>, depth: nat): seq<string>
      requires depth < |levelValues|
    {
      InspectorFor(depth)(currentNode, LevelValueFor(depth), depth, MatcherFor(depth), TypeFor(depth))
    }

    /** Inspection of the chosen children, one level deeper, concatenated in key order. */
    function Descend(currentNode: LevelNode<T>, keys: seq<string>, depth: nat): seq<LevelNode<T>>
      requires depth < |levelValues|
      decreases |levelValues| - depth - 1, |keys|
    {
      if keys == [] then []
      else
        (if keys[0] in currentNode.children then Inspect(currentNode.children[keys[0]], depth + 1) else [])
        + Descend(currentNode, keys[1..], depth)
    }

    function InspectorFor(depth: nat): LevelNodeInspector<T>
    {
      if overrides.greedy(depth) then greedyNodeInspector else fastNodeInspector
    }

    function MatcherFor(depth: nat): Matcher
    {
      overrides.effectiveMatcher(depth)
    }

    function TypeFor(depth: nat): ValueType
    {
      index.typeAt(depth)
    }

    function LevelValueFor(depth: nat): string
      requires depth < |levelValues|
    {
      levelValues[depth]
    }

    /** Node m is reached from node n at this depth: n itself once the level
        values are used up, otherwise through a child whose key the inspector
        chose and that exists. */
    ghost predicate Reaches(n: LevelNode<T>, depth: nat, m: LevelNode<T>)
      decreases |levelValues| - depth
    {
      if depth >= |levelValues| then m == n
      else exists k :: k in Chosen(n, depth) && k in n.children && Reaches(n.children[k], depth + 1, m)
    }
  }

  /** Once the depth reaches the number of level values, the current node is
      the only result, whatever depth the index itself has. */
  lemma InspectAtExhaustedDepth<T>(w: CustomizableLevelIndexWalker<T>, n: LevelNode<T>, depth: nat)
    requires depth >= |w.levelValues|
    ensures w.Inspect(n, depth) == [n]
  {
  }

  /** `find` inspects the root at depth 0; with no level values the extractor
      receives the root alone. */
  lemma FindStartsAtRoot<T>(w: CustomizableLevelIndexWalker<T>)
    ensures w.Find() == w.levelLeafValuesExtractor(WalkerView(w.overrides, w.index, w.levelValues), w.Inspect(w.index.root, 0))
    ensures |w.levelValues| == 0 ==>
      w.Find() == w.levelLeafValuesExtractor(WalkerView(w.overrides, w.index, w.levelValues), [w.index.root])
  {
  }

  /** Below the value count, the greedy inspector is consulted exactly when the
      configuration says so, the fast one otherwise, and the inspector is handed
      the level value, matcher and type of that depth. */
  lemma InspectorChoiceAtDepth<T>(w: CustomizableLevelIndexWalker<T>, n: LevelNode<T>, depth: nat)
    requires depth < |w.levelValues|
    ensures w.overrides.greedy(depth) ==>
      w.Inspect(n, depth)
      == w.Descend(n, w.greedyNodeInspector(n, w.levelValues[depth], depth, w.overrides.effectiveMatcher(depth), w.index.typeAt(depth)), depth)
    ensures !w.overrides.greedy(depth) ==>
      w.Inspect(n, depth)
      == w.Descend(n, w.fastNodeInspector(n, w.levelValues[depth], depth, w.overrides.effectiveMatcher(depth), w.index.typeAt(depth)), depth)
  {
    var view := (n, w.levelValues[depth], depth, w.overrides.effectiveMatcher(depth), w.index.typeAt(depth));
    if w.overrides.greedy(depth) {
      assert w.Chosen(n, depth) == w.greedyNodeInspector(view.0, view.1, view.2, view.3, view.4);
    } else {
      assert w.Chosen(n, depth) == w.fastNodeInspector(view.0, view.1, view.2, view.3, view.4);
    }
  }

  /** Soundness and completeness of the walk: a node is in the result of
      inspecting n at this depth exactly when it is reached from n through
      chosen, existing children. */
  lemma {:induction false} InspectReachesExactly<T>(w: CustomizableLevelIndexWalker<T>, n: LevelNode<T>, depth: nat, m: LevelNode<T>)
    ensures m in w.Inspect(n, depth) <==> w.Reaches(n, depth, m)
    decreases |w.levelValues| - depth, 0
  {
    if depth < |w.levelValues| {
      DescendReachesExactly(w, n, w.Chosen(n, depth), depth, m);
    }
  }

  lemma {:induction false} DescendReachesExactly<T>(w: CustomizableLevelIndexWalker<T>, n: LevelNode<T>, keys: seq<string>,
                                                    depth: nat, m: LevelNode<T>)
    requires depth < |w.levelValues|
    ensures m in w.Descend(n, keys, depth)
            <==> exists k :: k in keys && k in n.children && w.Reaches(n.children[k], depth + 1, m)
    decreases |w.levelValues| - depth - 1, |keys|
  {
    if keys != [] {
      var head := if keys[0] in n.children then w.Inspect(n.children[keys[0]], depth + 1) else [];
      assert w.Descend(n, keys, depth) == head + w.Descend(n, keys[1..], depth);
      if keys[0] in n.children {
        InspectReachesExactly(w, n.children[keys[0]], depth + 1, m);
      }
      DescendReachesExactly(w, n, keys[1..], depth, m);
      assert forall k :: k in keys <==> k == keys[0] || k in keys[1..];
    }
  }

  /** Where every remaining depth is greedy, the fast inspector plays no part. */
  lemma {:induction false} GreedyDepthsIgnoreFastInspector<T>(w: CustomizableLevelIndexWalker<T>, fast: LevelNodeInspector<T>,
                                                              n: LevelNode<T>, depth: nat)
    requires forall e :: depth <= e < |w.levelValues| ==> w.overrides.greedy(e)
    ensures w.(fastNodeInspector := fast).Inspect(n, depth) == w.Inspect(n, depth)
    decreases |w.levelValues| - depth, 0
  {
    if depth < |w.levelValues| {
      var w' := w.(fastNodeInspector := fast);
      assert w'.Chosen(n, depth) == w.Chosen(n, depth);
      GreedyDepthsIgnoreFastInspectorBelow(w, fast, n, w.Chosen(n, depth), depth);
    }
  }

  lemma {:induction false} GreedyDepthsIgnoreFastInspectorBelow<T>(w: CustomizableLevelIndexWalker<T>, fast: LevelNodeInspector<T>,
                                                                   n: LevelNode<T>, keys: seq<string>, depth: nat)
    requires depth < |w.levelValues|
    requires forall e :: depth <= e < |w.levelValues| ==> w.overrides.greedy(e)
    ensures w.(fastNodeInspector := fast).Descend(n, keys, depth) == w.Descend(n, keys, depth)
    decreases |w.levelValues| - depth - 1, |keys|
  {
    if keys != [] {
      if keys[0] in n.children {
        GreedyDepthsIgnoreFastInspector(w, fast, n.children[keys[0]], depth + 1);
      }
      GreedyDepthsIgnoreFastInspectorBelow(w, fast, n, keys[1..], depth);
    }
  }

  /** Where no remaining depth is greedy, the greedy inspector plays no part. */
  lemma {:induction false} FastDepthsIgnoreGreedyInspector<T>(w: CustomizableLevelIndexWalker<T>, greedy: LevelNodeInspector<T>,
                                                              n: LevelNode<T>, depth: nat)
    requires forall e :: depth <= e < |w.levelValues| ==> !w.overrides.greedy(e)
    ensures w.(greedyNodeInspector := greedy).Inspect(n, depth) == w.Inspect(n, depth)
    decreases |w.levelValues| - depth, 0
  {
    if depth < |w.levelValues| {
      var w' := w.(greedyNodeInspector := greedy);
      assert w'.Chosen(n, depth) == w.Chosen(n, depth);
      FastDepthsIgnoreGreedyInspectorBelow(w, greedy, n, w.Chosen(n, depth), depth);
    }
  }

  lemma {:induction false} FastDepthsIgnoreGreedyInspectorBelow<T>(w: CustomizableLevelIndexWalker<T>, greedy: LevelNodeInspector<T>,
                                                                   n: LevelNode<T>, keys: seq<string>, depth: nat)
    requires depth < |w.levelValues|
    requires forall e :: depth <= e < |w.levelValues| ==> !w.overrides.greedy(e)
    ensures w.(greedyNodeInspector := greedy).Descend(n, keys, depth) == w.Descend(n, keys, depth)
    decreases |w.levelValues| - depth - 1, |keys|
  {
    if keys != [] {
      if keys[0] in n.children {
        FastDepthsIgnoreGreedyInspector(w, greedy, n.children[keys[0]], depth + 1);
      }
      FastDepthsIgnoreGreedyInspectorBelow(w, greedy, n, keys[1..], depth);
    }
  }

  /** The extractor that returns the values stored at the reached nodes, in
      node order: a value is returned exactly when some reached node holds it. */
  function CollectLeafValues<T>(nodes: seq<LevelNode<T>>): (values: seq<T>)
    ensures forall i, j :: 0 <= i < |nodes| && 0 <= j < |nodes[i].leafList| ==> nodes[i].leafList[j] in values
    ensures forall j :: 0 <= j < |values| ==> exists i :: 0 <= i < |nodes| && values[j] in nodes[i].leafList
  {
    if nodes == [] then []
    else
      var rest := CollectLeafValues(nodes[1..]);
      assert forall i :: 1 <= i < |nodes| ==> nodes[i] == nodes[1..][i - 1];
      nodes[0].leafList + rest
  }

  /** At the last depth, descending yields the chosen children that exist. */
  lemma {:induction false} DescendAtLastDepth<T>(w: CustomizableLevelIndexWalker<T>, n: LevelNode<T>, keys: seq<string>, depth: nat,
                                                 m: LevelNode<T>)
    requires depth + 1 == |w.levelValues|
    ensures m in w.Descend(n, keys, depth) <==> exists k :: k in keys && k in n.children && m == n.children[k]
    decreases |keys|
  {
    if keys != [] {
      DescendAtLastDepth(w, n, keys[1..], depth, m);
      assert forall k :: k in keys <==> k == keys[0] || k in keys[1..];
    }
  }

  const DefaultLeaf: LevelNode<string> := LevelNode(map[], ["default"])
  const ValueLeaf: LevelNode<string> := LevelNode(map[], ["value"])
  const NoiseLeaf: LevelNode<string> := LevelNode(map[], ["noise"])

  /** The one-level index of the greedy-inspection test: rows "*" -> "default",
      "A" -> "value" and "C" -> "noise". */
  function GreedyTestRoot(): LevelNode<string>
  {
    LevelNode(map["*" := DefaultLeaf, "A" := ValueLeaf, "C" := NoiseLeaf], [])
  }

  /** The greedy-inspection test walker over the test index, with input "A". */
  function GreedyTestWalker(fast: LevelNodeInspector<string>, greedy: LevelNodeInspector<string>,
                            matchers: nat -> Matcher, types: nat -> ValueType): CustomizableLevelIndexWalker<string>
  {
    CustomizableLevelIndexWalker(fast, greedy, IndexTraversalConfig((d: nat) => true, matchers),
                                 (view: WalkerView<string>, nodes: seq<LevelNode<string>>) => CollectLeafValues(nodes),
                                 LevelIndex(1, types, GreedyTestRoot()), ["A"])
  }

  /** The nodes the test walk reaches are exactly the wildcard and the "A" leaves. */
  lemma GreedyTestReachedNodes(w: CustomizableLevelIndexWalker<string>, chosen: set<string>)
    requires w.levelValues == ["A"] && w.index.root == GreedyTestRoot()
    requires chosen == (set k | k in w.Chosen(w.index.root, 0)) && chosen == {"*", "A"}
    ensures forall m :: m in w.Inspect(w.index.root, 0) ==> m == DefaultLeaf || m == ValueLeaf
    ensures DefaultLeaf in w.Inspect(w.index.root, 0) && ValueLeaf in w.Inspect(w.index.root, 0)
  {
    var root := w.index.root;
    var keys := w.Chosen(root, 0);
    var nodes := w.Inspect(root, 0);
    assert nodes == w.Descend(root, keys, 0);
    forall m | m in nodes
      ensures m == DefaultLeaf || m == ValueLeaf
    {
      DescendAtLastDepth(w, root, keys, 0, m);
      var k :| k in keys && k in root.children && m == root.children[k];
      assert k in chosen;
    }
    DescendAtLastDepth(w, root, keys, 0, DefaultLeaf);
    assert "*" in chosen && "*" in root.children && root.children["*"] == DefaultLeaf;
    DescendAtLastDepth(w, root, keys, 0, ValueLeaf);
    assert "A" in chosen && "A" in root.children && root.children["A"] == ValueLeaf;
  }

  /** Collecting the values of nodes that are all one of two single-value
      leaves, both present, gives exactly those two values. */
  lemma TwoLeafValues<T>(nodes: seq<LevelNode<T>>, a: T, b: T)
    requires forall i :: 0 <= i < |nodes| ==> nodes[i].leafList == [a] || nodes[i].leafList == [b]
    requires exists i :: 0 <= i < |nodes| && nodes[i].leafList == [a]
    requires exists i :: 0 <= i < |nodes| && nodes[i].leafList == [b]
    ensures forall v :: v in CollectLeafValues(nodes) <==> v == a || v == b
  {
    var found := CollectLeafValues(nodes);
    forall v | v in found
      ensures v == a || v == b
    {
      var j :| 0 <= j < |found| && found[j] == v;
      var i :| 0 <= i < |nodes| && v in nodes[i].leafList;
    }
    var d :| 0 <= d < |nodes| && nodes[d].leafList == [a];
    assert nodes[d].leafList[0] == a;
    var e :| 0 <= e < |nodes| && nodes[e].leafList == [b];
    assert nodes[e].leafList[0] == b;
  }

  /** Walked greedily with the input "A", by a greedy inspector that enters the
      wildcard and the "A" branch and not the "C" branch, the index yields
      exactly the values "value" and "default". */
  lemma GreedyInspectionOfTestIndex(fast: LevelNodeInspector<string>, greedy: LevelNodeInspector<string>,
                                    matchers: nat -> Matcher, types: nat -> ValueType)
    requires (set k | k in greedy(GreedyTestRoot(), "A", 0, matchers(0), types(0))) == {"*", "A"}
    ensures (set v | v in GreedyTestWalker(fast, greedy, matchers, types).Find()) == {"value", "default"}
  {
    var w := GreedyTestWalker(fast, greedy, matchers, types);
    assert w.Chosen(w.index.root, 0) == greedy(GreedyTestRoot(), "A", 0, matchers(0), types(0));
    GreedyTestReachedNodes(w, set k | k in w.Chosen(w.index.root, 0));
    var nodes := w.Inspect(w.index.root, 0);
    assert forall i :: 0 <= i < |nodes| ==> nodes[i] in nodes;
    assert exists i :: 0 <= i < |nodes| && nodes[i] == ValueLeaf;
    assert exists i :: 0 <= i < |nodes| && nodes[i] == DefaultLeaf;
    TwoLeafValues(nodes, "value", "default");
  }
}
