/** The installed kit's streaming check, with a stack popped down to the parent. */
module InstalledTopology {
  import opened Common
  import opened Topology

  function Pages(ns: seq<Node>): nat {
    |Children(ns, None)|
  }

  /** Popping from the top until `parent` is uncovered leaves the path up to `parent`. */
  method PopTo(path: seq<string>, parent: string) returns (stack: seq<string>)
    requires Distinct(path)
    ensures parent in path ==> stack == Upto(path, parent)
    ensures parent !in path ==> stack == []
  {
    stack := path;
    while stack != [] && Last(stack) != parent
      invariant stack <= path
      invariant parent in path ==> parent in stack
    {
      stack := Init(stack);
    }
    if stack != [] {
      UptoPrefix(path, stack);
    }
  }

  /** Stopping at element `k` is right exactly when it does not continue what came before. */
  lemma Prefix(ns: seq<Node>, k: nat)
    requires k < |ns|
    ensures ns[..k + 1] == ns[..k] + [ns[k]]
    ensures Canonical(ns) && Canonical(ns[..k]) ==> Admits(ns[..k], ns[k])
  {
    hide Canonical, Admits;
    assert ns[..k + 1] == ns[..k] + [ns[k]];
    if Canonical(ns) {
      CanonicalPrefix(ns, k + 1);
      CanonicalSnoc(ns[..k], ns[k]);
    }
  }

  lemma NothingYet()
    ensures Canonical([]) && Declared([]) == {} && OpenPath([]) == [] && Counts(map[], []) && Pages([]) == 0
  {
  }

  lemma OneMore(before: seq<Node>, n: Node)
    requires Canonical(before) && Admits(before, n)
    ensures Canonical(before + [n])
    ensures Declared(before + [n]) == Declared(before) + {n.id}
    ensures OpenPath(before + [n]) == (if n.parent.None? then [] else Upto(OpenPath(before), n.parent.value)) + [n.id]
    ensures Pages(before + [n]) == Pages(before) + if n.parent.None? then 1 else 0
  {
    InitOfSnoc(before, n);
    DeclaredSnoc(before, n);
  }

  /** Accepts exactly the canonical lists, and counts their pages and blocks. */
  method Nodes(nodes: seq<Node>) returns (r: Option<(nat, nat)>)
    ensures r.Some? <==> Canonical(nodes)
    ensures r.Some? ==> r.value.0 == Pages(nodes) && r.value.0 + r.value.1 == |nodes|
  {
    hide Canonical, OpenPath, Children, Counts, Declared;
    NothingYet();
    var seen: set<string> := {};
    var nextOrdinal: map<Option<string>, int> := map[];
    var stack: seq<string> := [];
    var pageNodes, blockNodes := 0, 0;
    ghost var before: seq<Node> := [];
    for k := 0 to |nodes|
      invariant before == nodes[..k]
      invariant Canonical(before)
      invariant seen == Declared(before)
      invariant stack == OpenPath(before)
      invariant Counts(nextOrdinal, before)
      invariant pageNodes == Pages(before) && pageNodes + blockNodes == k
    {
      var node := nodes[k];
      Prefix(nodes, k);
      OpenPathNames(before);
      DueOf(nextOrdinal, before, node.parent);
      if node.id in seen {
        return None;
      }
      if node.kind == Page {
        if node.parent.Some? || node.ordinal != pageNodes {
          return None;
        }
        pageNodes := pageNodes + 1;
        stack := [node.id];
      } else {
        if node.parent.None? || node.parent.value !in seen {
          return None;
        }
        stack := PopTo(stack, node.parent.value);
        if stack == [] {
          return None;
        }
        blockNodes := blockNodes + 1;
      }
      var expected := Due(nextOrdinal, node.parent);
      if node.ordinal != expected {
        return None;
      }
      CountOneMore(nextOrdinal, before, node);
      OneMore(before, node);
      nextOrdinal := nextOrdinal[node.parent := expected + 1];
      seen := seen + {node.id};
      if node.kind == Block {
        stack := stack + [node.id];
      }
      before := before + [node];
    }
    assert nodes[..|nodes|] == nodes;
    r := Some((pageNodes, blockNodes));
  }
}
