/** The canonical lists are exactly the snapshots of ordered forests. */
module Forests {
  import opened Common
  import opened Topology

  /** `spine` leads from a root of the open tree down to `parent`. */
  ghost predicate LeadsTo(before: seq<Node>, spine: seq<string>, parent: Option<string>) {
    && spine <= OpenPath(before)
    && (parent.None? ==> spine == [])
    && (parent.Some? ==> spine != [] && Last(spine) == parent.value)
  }

  lemma Regroup<T>(a: seq<T>, b: seq<T>, c: seq<T>, d: seq<T>)
    ensures a + (b + c + d) == a + b + c + d
  {
  }

  /** One node hung below `parent`, the last name of `spine`. */
  lemma AppendNode(before: seq<Node>, spine: seq<string>, n: Node, limit: nat)
    requires Canonical(before) && LeadsTo(before, spine, n.parent)
    requires n.id !in Declared(before) && n.kind == KindUnder(n.parent)
    requires n.ordinal == |Children(before, n.parent)|
    ensures Canonical(before + [n])
    ensures OpenPath(before + [n]) == spine + [n.id]
    ensures Shallow(before + [n], limit) <==> Shallow(before, limit) && |spine| <= limit
    ensures Children(before + [n], Some(n.id)) == []
  {
    InitOfSnoc(before, n);
    OpenPathNames(before);
    if n.parent.Some? {
      UptoPrefix(OpenPath(before), spine);
    }
    CanonicalParents(before);
    NoChildren(before + [n], Some(n.id)) by {
      forall m | m in before + [n] ensures m.parent != Some(n.id) {
        if m in before && m.parent.Some? {
          assert m.parent.value in Declared(before);
        } else if m == n && n.parent.Some? {
          assert n.parent.value in OpenPath(before);
        }
      }
    }
  }

  /**
   * Serialising a forest below the end of `spine` extends a canonical list to a
   * canonical list, keeps `spine` open, and stays shallow exactly as the forest does.
   */
  lemma {:induction false} FlattenExtends(
      before: seq<Node>, f: Forest, parent: Option<string>, ord: nat, spine: seq<string>, limit: nat)
    requires Canonical(before) && LeadsTo(before, spine, parent)
    requires |Children(before, parent)| == ord
    requires Fresh(f, Declared(before))
    ensures Canonical(before + Flatten(f, parent, ord))
    ensures spine <= OpenPath(before + Flatten(f, parent, ord))
    ensures Shallow(before + Flatten(f, parent, ord), limit)
            <==> Shallow(before, limit) && WithinDepth(f, |spine|, limit)
    decreases f
  {
    hide Canonical, Shallow, OpenPath, Children, Declared;
    match f
    case Empty =>
      assert before + Flatten(f, parent, ord) == before;
    case Tree(id, kids, rest) =>
      var n := Node(id, KindUnder(parent), parent, ord);
      AppendNode(before, spine, n, limit);
      DeclaredSnoc(before, n);
      var one := before + [n];
      var two := one + Flatten(kids, Some(id), 0);
      FlattenExtends(one, kids, Some(id), 0, spine + [id], limit);
      DeclaredConcat(one, Flatten(kids, Some(id), 0));
      FlattenDeclares(kids, Some(id), 0);
      assert spine <= OpenPath(two);
      ChildrenAfterTree(before, f, parent, ord, spine);
      FlattenExtends(two, rest, parent, ord + 1, spine, limit);
      Regroup(before, [n], Flatten(kids, Some(id), 0), Flatten(rest, parent, ord + 1));
  }

  /** After the first tree of `f` the surrounding parent has exactly one more child. */
  lemma ChildrenAfterTree(before: seq<Node>, f: Forest, parent: Option<string>, ord: nat, spine: seq<string>)
    requires f.Tree? && |Children(before, parent)| == ord
    requires Canonical(before) && LeadsTo(before, spine, parent)
    requires Fresh(f, Declared(before))
    ensures |Children(before + [Node(f.id, KindUnder(parent), parent, ord)]
                      + Flatten(f.kids, Some(f.id), 0), parent)| == ord + 1
  {
    var n := Node(f.id, KindUnder(parent), parent, ord);
    FreshAvoids(f, Declared(before));
    SpineIsDeclared(before, spine, parent);
    NoneBelowHang(f, parent);
    ChildrenConcat(before + [n], Flatten(f.kids, Some(f.id), 0), parent);
    InitOfSnoc(before, n);
  }

  lemma SpineIsDeclared(before: seq<Node>, spine: seq<string>, parent: Option<string>)
    requires Canonical(before) && LeadsTo(before, spine, parent)
    ensures parent.Some? ==> parent.value in Declared(before)
  {
    OpenPathNames(before);
    if parent.Some? {
      assert OpenPath(before)[|spine| - 1] == Last(spine);
    }
  }

  /** The snapshot of a forest with distinct identifiers is canonical, and as deep as the forest. */
  lemma SnapshotIsCanonical(f: Forest, limit: nat)
    requires Distinct(Preorder(f))
    ensures Canonical(Snapshot(f))
    ensures Shallow(Snapshot(f), limit) <==> WithinDepth(f, 0, limit)
  {
    FreshIsDistinct(f, {});
    assert Declared([]) == {};
    FlattenExtends([], f, None, 0, [], limit);
    assert [] + Snapshot(f) == Snapshot(f);
  }

  // ------------------------------------------------- rebuilding the forest

  /** The identifiers on the way from the last root to the last node. */
  function LastPath(f: Forest): seq<string> {
    match f
    case Empty => []
    case Tree(id, kids, rest) => if rest.Tree? then LastPath(rest) else [id] + LastPath(kids)
  }

  /** A new last child for the node at `depth` of the last path, or a new last root at depth 0. */
  function Attach(f: Forest, depth: nat, id: string): (r: Forest)
    requires depth <= |LastPath(f)|
    ensures r.Tree?
  {
    match f
    case Empty => Tree(id, Empty, Empty)
    case Tree(i, kids, rest) =>
      if rest.Tree? then Tree(i, kids, Attach(rest, depth, id))
      else if depth == 0 then Tree(i, kids, Tree(id, Empty, Empty))
      else Tree(i, Attach(kids, depth - 1, id), Empty)
  }

  /** The ordinal the new child gets. */
  function Slot(f: Forest, depth: nat): nat
    requires depth <= |LastPath(f)|
  {
    match f
    case Empty => 0
    case Tree(_, kids, rest) =>
      if rest.Tree? then (if depth == 0 then 1 else 0) + Slot(rest, depth)
      else if depth == 0 then 1
      else Slot(kids, depth - 1)
  }

  function AttachParent(f: Forest, parent: Option<string>, depth: nat): Option<string>
    requires depth <= |LastPath(f)|
  {
    if depth == 0 then parent else Some(LastPath(f)[depth - 1])
  }

  /** The node a new child becomes in the serialisation. */
  function Attached(f: Forest, depth: nat, id: string, parent: Option<string>, ord: nat): Node
    requires depth <= |LastPath(f)|
  {
    var at := AttachParent(f, parent, depth);
    Node(id, KindUnder(at), at, (if depth == 0 then ord else 0) + Slot(f, depth))
  }

  /** A younger sibling tree takes the new child. */
  lemma AttachedBeside(f: Forest, depth: nat, id: string, parent: Option<string>, ord: nat)
    requires f.Tree? && f.rest.Tree? && depth <= |LastPath(f)|
    ensures depth <= |LastPath(f.rest)| && Attach(f, depth, id) == Tree(f.id, f.kids, Attach(f.rest, depth, id))
    ensures Attached(f, depth, id, parent, ord) == Attached(f.rest, depth, id, parent, ord + 1)
  {
  }

  /** The last tree takes it in. */
  lemma AttachedBelow(f: Forest, depth: nat, id: string, parent: Option<string>, ord: nat)
    requires f.Tree? && f.rest.Empty? && 0 < depth <= |LastPath(f)|
    ensures depth - 1 <= |LastPath(f.kids)| && Attach(f, depth, id) == Tree(f.id, Attach(f.kids, depth - 1, id), Empty)
    ensures Attached(f, depth, id, parent, ord) == Attached(f.kids, depth - 1, id, Some(f.id), 0)
  {
  }

  /** Or it becomes a tree of its own. */
  lemma AttachedLast(f: Forest, id: string, parent: Option<string>, ord: nat)
    requires f.Tree? ==> f.rest.Empty?
    ensures Attach(f, 0, id) == if f.Empty? then Tree(id, Empty, Empty) else Tree(f.id, f.kids, Tree(id, Empty, Empty))
    ensures Attached(f, 0, id, parent, ord) == Node(id, KindUnder(parent), parent, if f.Empty? then ord else ord + 1)
  {
  }

  lemma FlattenTree(f: Forest, parent: Option<string>, ord: nat)
    requires f.Tree?
    ensures Flatten(f, parent, ord)
            == [Node(f.id, KindUnder(parent), parent, ord)]
               + Flatten(f.kids, Some(f.id), 0) + Flatten(f.rest, parent, ord + 1)
  {
  }

  lemma FlattenNothing(parent: Option<string>, ord: nat)
    ensures Flatten(Empty, parent, ord) == []
  {
  }

  lemma {:induction false} AttachAppends(f: Forest, depth: nat, id: string, parent: Option<string>, ord: nat)
    requires depth <= |LastPath(f)|
    ensures Flatten(Attach(f, depth, id), parent, ord)
            == Flatten(f, parent, ord) + [Attached(f, depth, id, parent, ord)]
  {
    hide KindUnder, Attach, Attached, LastPath, Flatten;
    FlattenNothing(parent, ord);
    FlattenNothing(parent, ord + 1);
    FlattenTree(Attach(f, depth, id), parent, ord);
    if f.Tree? {
      FlattenTree(f, parent, ord);
    }
    if f.Tree? && f.rest.Tree? {
      AttachedBeside(f, depth, id, parent, ord);
      AttachAppends(f.rest, depth, id, parent, ord + 1);
    } else if f.Tree? && depth > 0 {
      AttachedBelow(f, depth, id, parent, ord);
      AttachAppends(f.kids, depth - 1, id, Some(f.id), 0);
    } else {
      NoPath();
      AttachedLast(f, id, parent, ord);
      FlattenTree(Tree(id, Empty, Empty), parent, ord);
      FlattenTree(Tree(id, Empty, Empty), parent, ord + 1);
      FlattenNothing(Some(id), 0);
      FlattenNothing(parent, ord + 2);
    }
  }

  lemma NoPath()
    ensures LastPath(Empty) == []
  {
  }

  lemma {:induction false} AttachPath(f: Forest, depth: nat, id: string)
    requires depth <= |LastPath(f)|
    ensures LastPath(Attach(f, depth, id)) == LastPath(f)[..depth] + [id]
  {
    if f.Tree? {
      if f.rest.Tree? {
        AttachPath(f.rest, depth, id);
      } else if depth > 0 {
        AttachPath(f.kids, depth - 1, id);
      } else {
        assert LastPath(Tree(id, Empty, Empty)) == [id];
      }
    }
  }

  /** The place of a legal next node on the last path of the forest rebuilt so far. */
  lemma AttachPlace(before: seq<Node>, g: Forest, n: Node) returns (depth: nat)
    requires Canonical(before) && LastPath(g) == OpenPath(before)
    requires Admits(before, n)
    ensures depth <= |LastPath(g)| && AttachParent(g, None, depth) == n.parent
    ensures LastPath(g)[..depth] + [n.id] == OpenPath(before + [n])
  {
    hide Canonical, Children, OpenPath, Upto, LastPath, Declared;
    OpenPathSnoc(before, n);
    depth := 0;
    if n.parent.Some? {
      var up := Upto(OpenPath(before), n.parent.value);
      depth := |up|;
      assert LastPath(g)[..depth] == up;
      assert up[depth - 1] == n.parent.value;
    }
  }

  /** Every canonical list is the snapshot of a forest, whose last path is the open path. */
  lemma {:induction false} Rebuild(ns: seq<Node>) returns (f: Forest)
    requires Canonical(ns)
    ensures Snapshot(f) == ns
    ensures Distinct(Preorder(f))
    ensures LastPath(f) == OpenPath(ns)
  {
    if ns == [] {
      f := Empty;
    } else {
      var before, n := Init(ns), Last(ns);
      assert ns == before + [n];
      var g := Rebuild(before);
      var depth := AttachPlace(before, g, n);
      f := Attach(g, depth, n.id);
      AttachAppends(g, depth, n.id, None, 0);
      AttachPath(g, depth, n.id);
      var m := Attached(g, depth, n.id, None, 0);
      assert Snapshot(f) == before + [m];
      DistinctGrows(f, before, m);
      SameOrdinal(f, before, m, n);
    }
  }

  lemma DistinctGrows(f: Forest, before: seq<Node>, m: Node)
    requires Snapshot(f) == before + [m]
    requires Canonical(before) && m.id !in Declared(before)
    ensures Distinct(Preorder(f))
  {
    PreorderIsIds(f, None, 0);
    CanonicalUnique(before);
    var ids := Ids(before + [m]);
    forall i, j | 0 <= i < j < |ids| ensures ids[i] != ids[j] {
      assert ids[i] == before[i].id == Ids(before)[i];
      assert before[i] in before;
      if j < |before| {
        assert ids[j] == Ids(before)[j];
      }
    }
  }

  /** A snapshot ending in `m` and a legal continuation `n` in its place agree on the ordinal. */
  lemma SameOrdinal(f: Forest, before: seq<Node>, m: Node, n: Node)
    requires Snapshot(f) == before + [m] && Distinct(Preorder(f))
    requires Admits(before, n) && n == m.(ordinal := n.ordinal)
    ensures m == n
  {
    SnapshotIsCanonical(f, 0);
    InitOfSnoc(before, m);
  }

  /** A list is canonical and shallow iff it serialises some forest of bounded depth. */
  lemma CanonicalIffSnapshot(ns: seq<Node>, limit: nat)
    ensures Canonical(ns) && Shallow(ns, limit)
            <==> exists f :: Distinct(Preorder(f)) && WithinDepth(f, 0, limit) && Snapshot(f) == ns
  {
    if Canonical(ns) && Shallow(ns, limit) {
      var f := Rebuild(ns);
      SnapshotIsCanonical(f, limit);
    }
    if exists f :: Distinct(Preorder(f)) && WithinDepth(f, 0, limit) && Snapshot(f) == ns {
      var f :| Distinct(Preorder(f)) && WithinDepth(f, 0, limit) && Snapshot(f) == ns;
      SnapshotIsCanonical(f, limit);
    }
  }
}
