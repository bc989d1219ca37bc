/** The three checks accept the same lists: the canonical ones. */
module TopologyAgreement {
  import opened Common
  import opened Sorting
  import opened Topology
  import opened ParentPointers
  import opened ContractTopology
  import opened Forests

  /** Pages are the roots and only the roots. */
  ghost predicate PagesAreRoots(ns: seq<Node>) {
    forall n :: n in ns ==> n.kind == KindUnder(n.parent)
  }

  ghost predicate ContractAccepts(ns: seq<Node>) {
    Verdict(ns).Ok?
  }

  // ------------------------------------------------- accepted ==> canonical

  lemma OrdinalsCons(n: Node, s: seq<Node>)
    ensures Ordinals([n] + s) == [n.ordinal] + Ordinals(s)
  {
  }

  lemma {:induction false} InsertOrdinals(x: Node, s: seq<Node>)
    ensures multiset(Ordinals(Insert(x, s, NodeLe))) == multiset{x.ordinal} + multiset(Ordinals(s))
  {
    if s == [] || NodeLe(x, s[0]) {
      OrdinalsCons(x, s);
    } else {
      InsertOrdinals(x, s[1..]);
      OrdinalsCons(s[0], Insert(x, s[1..], NodeLe));
      OrdinalsCons(s[0], s[1..]);
      assert s == [s[0]] + s[1..];
    }
  }

  lemma {:induction false} SortedOrdinals(s: seq<Node>)
    ensures multiset(Ordinals(Sort(s, NodeLe))) == multiset(Ordinals(s))
  {
    if s != [] {
      SortedOrdinals(s[1..]);
      InsertOrdinals(s[0], Sort(s[1..], NodeLe));
      OrdinalsCons(s[0], s[1..]);
      assert s == [s[0]] + s[1..];
    }
  }

  lemma NodeLeOrder()
    ensures Transitive(NodeLe) && Total(NodeLe)
  {
    forall a: Node, b: Node ensures NodeLe(a, b) || NodeLe(b, a) {
      StrLeTotal(a.id, b.id);
    }
    forall a: Node, b: Node, c: Node | NodeLe(a, b) && NodeLe(b, c) ensures NodeLe(a, c) {
      if a.ordinal == b.ordinal == c.ordinal {
        StrLeTransitive(a.id, b.id, c.id);
      }
    }
  }

  /** Sorting nodes sorts their ordinals. */
  lemma SortOrdinals(s: seq<Node>)
    ensures Ordinals(Sort(s, NodeLe)) == Sort(Ordinals(s), IntLe)
  {
    NodeLeOrder();
    SortSorts(s, NodeLe);
    SortSorts(Ordinals(s), IntLe);
    SortedOrdinals(s);
    SortPermutes(Ordinals(s), IntLe);
    SortedUnique(Ordinals(Sort(s, NodeLe)), Sort(Ordinals(s), IntLe), IntLe);
  }

  /** With contiguous ordinals the sorted siblings are in the places their ordinals name. */
  lemma SortedPlaces(ns: seq<Node>, p: Option<string>)
    requires OrdinalsContiguous(ns)
    ensures forall i :: 0 <= i < |SortedChildren(ns, p)| ==> SortedChildren(ns, p)[i].ordinal == i
  {
    var cs := Children(ns, p);
    SortOrdinals(cs);
    assert Contiguous(cs);
    assert Ordinals(SortedChildren(ns, p)) == Range(|cs|);
    forall i | 0 <= i < |SortedChildren(ns, p)| ensures SortedChildren(ns, p)[i].ordinal == i {
      assert Ordinals(SortedChildren(ns, p))[i] == Range(|cs|)[i];
    }
  }

  /** Serialising the searched forest gives back nodes of the list, unchanged. */
  lemma {:induction false} SearchRestores(ns: seq<Node>, path: seq<string>, ord: nat)
    requires OrdinalsContiguous(ns) && PagesAreRoots(ns)
    requires Hang(ns, path, SortedChildren(ns, EndOf(path)))
    requires ord <= |SortedChildren(ns, EndOf(path))|
    ensures Hang(ns, path, SortedChildren(ns, EndOf(path))[ord..])
    ensures forall n :: n in Flatten(Search(ns, path, SortedChildren(ns, EndOf(path))[ord..]), EndOf(path), ord)
              ==> n in ns
    decreases |ns| - |path|, |SortedChildren(ns, EndOf(path))| - ord
  {
    var all := SortedChildren(ns, EndOf(path));
    var cs := all[ord..];
    if cs != [] {
      var c := cs[0];
      SortedPlaces(ns, EndOf(path));
      Descend(ns, path, c);
      assert c == Node(c.id, KindUnder(EndOf(path)), EndOf(path), ord);
      var deeper := path + [c.id];
      var kids := SortedChildren(ns, EndOf(deeper));
      SearchRestores(ns, deeper, 0);
      assert kids[0..] == kids;
      SearchRestores(ns, path, ord + 1);
      assert cs[1..] == all[ord + 1..];
    }
  }

  lemma AcceptedIsCanonical(ns: seq<Node>)
    ensures ContractAccepts(ns) && PagesAreRoots(ns) ==> Canonical(ns)
  {
    if ContractAccepts(ns) && PagesAreRoots(ns) {
      var f := Listed(ns);
      FromRoots(ns);
      var roots := SortedChildren(ns, None);
      assert roots[0..] == roots;
      SearchRestores(ns, [], 0);
      PreorderIsIds(f, None, 0);
      var ms := Snapshot(f);
      assert Ids(ms) == Ids(ns);
      forall i | 0 <= i < |ns| ensures ms[i] == ns[i] {
        assert Ids(ms)[i] == Ids(ns)[i];
        assert ms[i] in ms && ns[i] in ns;
        SameId(ns, ms[i], ns[i]);
      }
      assert ms == ns;
      SnapshotIsCanonical(f, 0);
    }
  }

  // ------------------------------------------------- canonical ==> accepted

  /** In `ns`, every node of `f` has the children it has in `f`. */
  ghost predicate Matches(ns: seq<Node>, f: Forest) {
    match f
    case Empty => true
    case Tree(id, kids, rest) =>
      Children(ns, Some(id)) == Roots(kids, Some(id), 0) && Matches(ns, kids) && Matches(ns, rest)
  }

  ghost function UsedBy(parent: Option<string>): set<string> {
    if parent.None? then {} else {parent.value}
  }

  lemma NoChildrenElsewhere(f: Forest, parent: Option<string>, ord: nat, q: string)
    requires parent != Some(q) && q !in Names(f)
    ensures Children(Flatten(f, parent, ord), Some(q)) == []
  {
    FlattenParents(f, parent, ord);
    NoChildren(Flatten(f, parent, ord), Some(q));
  }

  /** The children of a node of the first tree or of the others are found where it is. */
  lemma ChildrenInside(f: Forest, parent: Option<string>, ord: nat, q: string)
    requires f.Tree? && Fresh(f, UsedBy(parent)) && q in Names(f)
    ensures q == f.id || q in Names(f.kids) ==>
              Children(Flatten(f, parent, ord), Some(q)) == Children(Flatten(f.kids, Some(f.id), 0), Some(q))
    ensures q in Names(f.rest) ==>
              Children(Flatten(f, parent, ord), Some(q)) == Children(Flatten(f.rest, parent, ord + 1), Some(q))
  {
    TreeApart(f, UsedBy(parent));
    ChildrenOfTree(f, parent, ord, Some(q));
    hide *;
    if q == f.id || q in Names(f.kids) {
      NoChildrenElsewhere(f.rest, parent, ord + 1, q);
    } else {
      NoChildrenElsewhere(f.kids, Some(f.id), 0, q);
    }
  }

  lemma {:induction false} FlattenMatches(ns: seq<Node>, f: Forest, parent: Option<string>, ord: nat)
    requires Fresh(f, UsedBy(parent))
    requires forall q :: q in Names(f) ==>
               Children(ns, Some(q)) == Children(Flatten(f, parent, ord), Some(q))
    ensures Matches(ns, f)
  {
    match f
    case Empty =>
    case Tree(id, kids, rest) =>
      forall q | q in Names(f)
        ensures q == id || q in Names(kids) ==> Children(ns, Some(q)) == Children(Flatten(kids, Some(id), 0), Some(q))
        ensures q in Names(rest) ==> Children(ns, Some(q)) == Children(Flatten(rest, parent, ord + 1), Some(q))
      {
        ChildrenInside(f, parent, ord, q);
      }
      FreshAvoids(kids, UsedBy(parent) + {id});
      FlattenChildren(kids, Some(id), 0);
      FreshMonotone(kids, UsedBy(parent) + {id}, UsedBy(Some(id)));
      FlattenMatches(ns, kids, Some(id), 0);
      FreshMonotone(rest, UsedBy(parent) + {id} + Names(kids), UsedBy(parent));
      FlattenMatches(ns, rest, parent, ord + 1);
  }

  lemma {:induction false} RootsSorted(f: Forest, parent: Option<string>, ord: nat)
    ensures Sort(Roots(f, parent, ord), NodeLe) == Roots(f, parent, ord)
  {
    RootsShape(f, parent, ord);
    SortOfSorted(Roots(f, parent, ord), NodeLe);
  }

  /** Searching a list that matches a forest rebuilds that forest. */
  lemma {:induction false} SearchRebuilds(ns: seq<Node>, f: Forest, path: seq<string>, ord: nat)
    requires Matches(ns, f) && Hang(ns, path, Roots(f, EndOf(path), ord))
    ensures Search(ns, path, Roots(f, EndOf(path), ord)) == f
    decreases f
  {
    match f
    case Empty =>
    case Tree(id, kids, rest) =>
      var cs := Roots(f, EndOf(path), ord);
      Descend(ns, path, cs[0]);
      RootsSorted(kids, Some(id), 0);
      assert SortedChildren(ns, Some(id)) == Roots(kids, Some(id), 0);
      SearchRebuilds(ns, kids, path + [id], 0);
      assert cs[1..] == Roots(rest, EndOf(path), ord + 1);
      SearchRebuilds(ns, rest, path, ord + 1);
  }

  /** Searching a snapshot from its roots rebuilds the very forest it came from. */
  lemma SnapshotRoundTrip(f: Forest)
    requires Distinct(Preorder(f))
    ensures UniqueIds(Snapshot(f)) && Listed(Snapshot(f)) == f
  {
    var ns := Snapshot(f);
    SnapshotIsCanonical(f, 0);
    CanonicalUnique(ns);
    FreshIsDistinct(f, {});
    FlattenMatches(ns, f, None, 0);
    FlattenChildren(f, None, 0);
    RootsSorted(f, None, 0);
    FromRoots(ns);
    assert SortedChildren(ns, None) == Roots(f, EndOf([]), 0);
    SearchRebuilds(ns, f, [], 0);
  }

  lemma CanonicalIsContiguous(ns: seq<Node>)
    requires Canonical(ns)
    ensures OrdinalsContiguous(ns)
  {
    forall p ensures Contiguous(Children(ns, p)) {
      var cs := Children(ns, p);
      CanonicalOrdinals(ns, p);
      assert Ordinals(cs) == Range(|cs|);
      SortOfSorted(Ordinals(cs), IntLe);
    }
  }

  lemma {:induction false} CanonicalKinds(ns: seq<Node>)
    requires Canonical(ns)
    ensures PagesAreRoots(ns)
  {
    if ns != [] {
      CanonicalKinds(Init(ns));
      assert ns == Init(ns) + [Last(ns)];
    }
  }

  lemma CanonicalIsAccepted(ns: seq<Node>)
    requires Canonical(ns)
    ensures ContractAccepts(ns) && PagesAreRoots(ns)
  {
    CanonicalKinds(ns);
    CanonicalParents(ns);
    CanonicalIsContiguous(ns);
    var f := Rebuild(ns);
    SnapshotRoundTrip(f);
    PreorderIsIds(f, None, 0);
  }

  /** The rebuild-and-search check and the streaming rule agree on every list. */
  lemma ContractAgrees(ns: seq<Node>)
    ensures Canonical(ns) <==> ContractAccepts(ns) && PagesAreRoots(ns)
  {
    if Canonical(ns) {
      CanonicalIsAccepted(ns);
    }
    if ContractAccepts(ns) && PagesAreRoots(ns) {
      AcceptedIsCanonical(ns);
    }
  }
}
