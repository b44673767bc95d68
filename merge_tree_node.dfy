/** A node of the merge tree: children by level value and the one entry
    kept at the node. Inserting walks the levels of an entry from a given
    depth; the insertion is unfinished in the repository: the wildcard
    case is an empty branch, no child is ever created, and a key hit
    recurses on the same node one depth further, so the node's own
    children map is consulted at every remaining depth. */
module MergeTree {
  import opened Wrappers

  /** Whether an insertion from this depth reaches the assignment of the
      value: at every remaining depth the level value must be a key of the
      (never changing) children map. */
  function AddSucceeds(keys: set<string>, levels: seq<string>, depth: nat): (succeeds: bool)
    ensures succeeds <==> forall i :: depth <= i < |levels| ==> levels[i] in keys
    decreases |levels| - depth
  {
    if depth >= |levels| then true
    else levels[depth] in keys && AddSucceeds(keys, levels, depth + 1)
  }

  class MergeTreeNode<T> {
    var children: map<string, MergeTreeNode<T>>
    var value: Option<T>

    /** A new node has no children and no value. */
    constructor ()
      ensures children == map[] && value == None
    {
      children := map[];
      value := None;
    }

    /** Inserts the entry along its levels from the given depth and reports
        whether the value was assigned. The children map is never changed. */
    method Add(levels: seq<string>, entry: T, currentDepth: nat) returns (added: bool)
      modifies this
      ensures children == old(children)
      ensures added == AddSucceeds(old(children).Keys, levels, currentDepth)
      ensures value == if added then Some(entry) else old(value)
      decreases |levels| - currentDepth
    {
      if currentDepth >= |levels| {
        value := Some(entry);
        return true;
      }
      var levelValue := levels[currentDepth];
      if levelValue in children {
        added := Add(levels, entry, currentDepth + 1);
        return;
      }
      return false;
    }
  }

  /** Since no child is ever created, a node keeps its empty children map, and
      an insertion into it assigns the value exactly when the depth is already
      at or beyond the number of levels. */
  lemma AddOnChildlessNode(levels: seq<string>, depth: nat)
    ensures AddSucceeds({}, levels, depth) <==> depth >= |levels|
  {
    if depth < |levels| {
      assert !(levels[depth] in {});
    }
  }

  /** The wildcard is an ordinary key: whether a level value "*" lets the
      insertion through depends only on "*" being a key of the children. */
  lemma WildcardIsOrdinaryKey(keys: set<string>, levels: seq<string>, depth: nat)
    requires depth < |levels| && levels[depth] == "*"
    ensures AddSucceeds(keys, levels, depth) <==> "*" in keys && AddSucceeds(keys, levels, depth + 1)
  {
  }

  /** The first insertion into a newly built node: it succeeds exactly when
      the depth is at or beyond the number of levels, the node then holds the
      entry and otherwise still holds nothing, and its children stay empty. */
  method AddToNewNode<T>(levels: seq<string>, entry: T, depth: nat) returns (added: bool, stored: Option<T>, childCount: nat)
    ensures added <==> depth >= |levels|
    ensures stored == if added then Some(entry) else None
    ensures childCount == 0
  {
    var node := new MergeTreeNode<T>();
    added := node.Add(levels, entry, depth);
    AddOnChildlessNode(levels, depth);
    stored := node.value;
    childCount := |node.children|;
  }
}
