/** The contract kit's check: rebuild the tree, search it, compare with the list. */
module ContractTopology {
  import opened Common
  import opened Sorting
  import opened Topology
  import opened ParentPointers
  import Forests

  datatype ContractError = DuplicateId | UndeclaredParent | OrdinalGap | ParentCycle | NotPreorder

  predicate IntLe(a: int, b: int) {
    a <= b
  }

  function Ordinals(ns: seq<Node>): (r: seq<int>)
    ensures |r| == |ns| && forall i :: 0 <= i < |ns| ==> r[i] == ns[i].ordinal
  {
    seq(|ns|, i requires 0 <= i < |ns| => ns[i].ordinal)
  }

  function Range(n: nat): (r: seq<int>)
    ensures |r| == n && forall i :: 0 <= i < n ==> r[i] == i
  {
    seq(n, i => i)
  }

  /** The ordinals of the siblings, sorted, are 0, 1, 2, … */
  predicate Contiguous(siblings: seq<Node>) {
    Sort(Ordinals(siblings), IntLe) == Range(|siblings|)
  }

  ghost predicate OrdinalsContiguous(ns: seq<Node>) {
    forall p :: Contiguous(Children(ns, p))
  }

  /** The first rule that the list breaks, in the order in which they are checked. */
  ghost function Verdict(ns: seq<Node>): Result<(), ContractError> {
    if !UniqueIds(ns) then Err(DuplicateId)
    else if !ParentsDeclared(ns) then Err(UndeclaredParent)
    else if !OrdinalsContiguous(ns) then Err(OrdinalGap)
    else if |Preorder(Listed(ns))| != |ns| then Err(ParentCycle)
    else if Ids(ns) != Preorder(Listed(ns)) then Err(NotPreorder)
    else Ok(())
  }

  // ---------------------------------------------------- the imperative check

  function ChildrenAt(children: map<Option<string>, seq<Node>>, parent: Option<string>): seq<Node> {
    if parent in children then children[parent] else []
  }

  ghost predicate Groups(children: map<Option<string>, seq<Node>>, ns: seq<Node>) {
    forall p :: ChildrenAt(children, p) == Children(ns, p)
  }

  ghost predicate ParentsIn(ns: seq<Node>, known: set<string>) {
    forall n :: n in ns && n.parent.Some? ==> n.parent.value in known
  }

  lemma GroupOneMore(children: map<Option<string>, seq<Node>>, ns: seq<Node>, n: Node)
    requires Groups(children, ns)
    ensures Groups(children[n.parent := ChildrenAt(children, n.parent) + [n]], ns + [n])
  {
    InitOfSnoc(ns, n);
    var grown := children[n.parent := ChildrenAt(children, n.parent) + [n]];
    forall p ensures ChildrenAt(grown, p) == Children(ns + [n], p) {
      assert ChildrenAt(children, p) == Children(ns, p);
    }
  }

  /** The search of the rebuilt tree, appending to the expected order as it goes. */
  class Traversal {
    const nodes: seq<Node>
    const children: map<Option<string>, seq<Node>>
    var expected: seq<string>

    ghost predicate Valid() {
      UniqueIds(nodes) && Groups(children, nodes)
    }

    constructor (nodes: seq<Node>, children: map<Option<string>, seq<Node>>)
      requires UniqueIds(nodes) && Groups(children, nodes)
      ensures Valid() && this.nodes == nodes && expected == []
    {
      this.nodes := nodes;
      this.children := children;
      this.expected := [];
    }

    method Visit(parent: Option<string>, ghost path: seq<string>)
      requires Valid()
      requires Hang(nodes, path, SortedChildren(nodes, parent)) && parent == EndOf(path)
      requires |path| <= |nodes|
      modifies this
      ensures expected == old(expected) + Preorder(Search(nodes, path, SortedChildren(nodes, parent)))
      decreases |nodes| - |path|
    {
      assert ChildrenAt(children, parent) == Children(nodes, parent);
      var siblings := Sort(ChildrenAt(children, parent), NodeLe);
      assert siblings == SortedChildren(nodes, parent);
      hide *;
      ghost var all := Preorder(Search(nodes, path, siblings));
      assert siblings[0..] == siblings;
      for i := 0 to |siblings|
        invariant Valid()
        invariant Hang(nodes, path, siblings[i..])
        invariant expected + Preorder(Search(nodes, path, siblings[i..])) == old(expected) + all
      {
        var child := siblings[i];
        SearchStep(nodes, path, siblings[i..]);
        assert siblings[i..][1..] == siblings[i + 1..];
        expected := expected + [child.id];
        Visit(Some(child.id), path + [child.id]);
      }
    }
  }

  /** The search lists the first sibling, then what hangs below it, then the other siblings. */
  lemma SearchStep(ns: seq<Node>, path: seq<string>, cs: seq<Node>)
    requires Hang(ns, path, cs) && cs != []
    ensures |path| < |path + [cs[0].id]| <= |ns|
    ensures Some(cs[0].id) == EndOf(path + [cs[0].id])
    ensures Hang(ns, path, cs[1..])
    ensures Hang(ns, path + [cs[0].id], SortedChildren(ns, Some(cs[0].id)))
    ensures forall before: seq<string> ::
              before + Preorder(Search(ns, path, cs))
              == before + [cs[0].id]
                 + Preorder(Search(ns, path + [cs[0].id], SortedChildren(ns, Some(cs[0].id))))
                 + Preorder(Search(ns, path, cs[1..]))
  {
    Descend(ns, path, cs[0]);
    var f := Search(ns, path, cs);
    forall before: seq<string>
      ensures before + Preorder(f) == before + [f.id] + Preorder(f.kids) + Preorder(f.rest)
    {
      Forests.Regroup(before, [f.id], Preorder(f.kids), Preorder(f.rest));
    }
  }

  method CheckUnique(nodes: seq<Node>) returns (known: set<string>, ok: bool)
    ensures ok <==> UniqueIds(nodes)
    ensures ok ==> known == Declared(nodes)
  {
    known, ok := {}, true;
    for k := 0 to |nodes|
      invariant UniqueIds(nodes[..k]) && known == Declared(nodes[..k])
    {
      assert nodes[..k + 1] == nodes[..k] + [nodes[k]];
      UniqueSnoc(nodes[..k], nodes[k]);
      DeclaredSnoc(nodes[..k], nodes[k]);
      if nodes[k].id in known {
        ok := false;
        return;
      }
      known := known + {nodes[k].id};
    }
    assert nodes[..|nodes|] == nodes;
  }

  method GroupChildren(nodes: seq<Node>, known: set<string>)
    returns (children: map<Option<string>, seq<Node>>, ok: bool)
    requires known == Declared(nodes)
    ensures ok <==> ParentsDeclared(nodes)
    ensures ok ==> Groups(children, nodes)
  {
    children, ok := map[], true;
    ghost var before: seq<Node> := [];
    for k := 0 to |nodes|
      invariant before == nodes[..k] && Groups(children, before) && ParentsIn(before, known)
    {
      var node := nodes[k];
      if node.parent.Some? && node.parent.value !in known {
        assert node in nodes;
        ok := false;
        return;
      }
      GroupOneMore(children, before, node);
      children := children[node.parent := ChildrenAt(children, node.parent) + [node]];
      before := before + [node];
    }
    assert nodes[..|nodes|] == nodes;
  }

  lemma NoSiblings()
    ensures Contiguous([])
  {
    assert Ordinals([]) == [] && Range(0) == [];
  }

  method CheckOrdinals(ghost nodes: seq<Node>, children: map<Option<string>, seq<Node>>) returns (ok: bool)
    requires Groups(children, nodes)
    ensures ok <==> OrdinalsContiguous(nodes)
  {
    hide Contiguous, Children;
    NoSiblings();
    var keys := children.Keys;
    while keys != {}
      invariant keys <= children.Keys
      invariant forall p :: p !in keys ==> Contiguous(Children(nodes, p))
      decreases keys
    {
      var p :| p in keys;
      assert ChildrenAt(children, p) == Children(nodes, p);
      if !Contiguous(children[p]) {
        return false;
      }
      keys := keys - {p};
    }
    return true;
  }

  /** Reports exactly the first broken rule. */
  method ValidateNodes(nodes: seq<Node>) returns (r: Result<(), ContractError>)
    ensures r == Verdict(nodes)
  {
    hide UniqueIds, ParentsDeclared, OrdinalsContiguous, Declared, Children, Contiguous;
    var known, unique := CheckUnique(nodes);
    if !unique {
      return Err(DuplicateId);
    }
    var children, declared := GroupChildren(nodes, known);
    if !declared {
      return Err(UndeclaredParent);
    }
    var contiguous := CheckOrdinals(nodes, children);
    if !contiguous {
      return Err(OrdinalGap);
    }
    FromRoots(nodes);
    var walk := new Traversal(nodes, children);
    walk.Visit(None, []);
    if |walk.expected| != |nodes| {
      return Err(ParentCycle);
    }
    if Ids(nodes) != walk.expected {
      return Err(NotPreorder);
    }
    return Ok(());
  }

  lemma UniqueSnoc(before: seq<Node>, n: Node)
    ensures UniqueIds(before + [n]) <==> UniqueIds(before) && n.id !in Declared(before)
  {
    assert Ids(before + [n]) == Ids(before) + [n.id];
    DistinctConcat(Ids(before), [n.id]);
    assert n.id in Ids(before) <==> n.id in Declared(before) by {
      if n.id in Ids(before) {
        var i :| 0 <= i < |before| && Ids(before)[i] == n.id;
        assert before[i] in before;
      }
      if n.id in Declared(before) {
        var i :| 0 <= i < |before| && before[i].id == n.id;
        assert Ids(before)[i] == n.id;
      }
    }
  }

}
