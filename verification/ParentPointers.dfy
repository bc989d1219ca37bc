/**
 * Depth-first search over untrusted parent pointers: root paths, the forest a
 * search from the roots lists, and which nodes it can and cannot list.
 */
module ParentPointers {
  import opened Common
  import opened Sorting
  import opened Topology

  predicate NodeLe(a: Node, b: Node) {
    a.ordinal < b.ordinal || (a.ordinal == b.ordinal && StrLe(a.id, b.id))
  }

  /** Siblings by ordinal, ties by identifier. */
  function SortedChildren(ns: seq<Node>, parent: Option<string>): (r: seq<Node>)
    ensures forall n :: n in r <==> n in ns && n.parent == parent
  {
    SortKeepsElements(Children(ns, parent), NodeLe);
    ChildrenAreNodes(ns, parent);
    Sort(Children(ns, parent), NodeLe)
  }

  ghost predicate UniqueIds(ns: seq<Node>) {
    Distinct(Ids(ns))
  }

  function EndOf(path: seq<string>): Option<string> {
    if path == [] then None else Some(Last(path))
  }

  /** Parent pointers lead from the last name of `path` back, name by name, to a root. */
  ghost predicate RootPath(ns: seq<Node>, path: seq<string>) {
    path == [] ||
    (RootPath(ns, Init(path)) &&
     exists n :: n in ns && n.id == Last(path) && n.parent == EndOf(Init(path)))
  }

  lemma SameId(ns: seq<Node>, a: Node, b: Node)
    requires UniqueIds(ns) && a in ns && b in ns && a.id == b.id
    ensures a == b
  {
    var i :| 0 <= i < |ns| && ns[i] == a;
    var j :| 0 <= j < |ns| && ns[j] == b;
    assert Ids(ns)[i] == Ids(ns)[j];
  }

  lemma UniqueInit(ns: seq<Node>)
    requires UniqueIds(ns) && ns != []
    ensures UniqueIds(Init(ns)) && Last(ns).id !in Declared(Init(ns))
  {
    assert Ids(ns) == Ids(Init(ns)) + [Last(ns).id];
    DistinctConcat(Ids(Init(ns)), [Last(ns).id]);
    forall n | n in Init(ns) ensures n.id != Last(ns).id {
      var i :| 0 <= i < |ns| - 1 && Init(ns)[i] == n;
      assert Ids(Init(ns))[i] == n.id;
    }
  }

  lemma {:induction false} DeclaredSize(ns: seq<Node>)
    ensures |Declared(ns)| <= |ns|
    ensures UniqueIds(ns) ==> |Declared(ns)| == |ns|
  {
    hide UniqueIds;
    if ns != [] {
      DeclaredSize(Init(ns));
      DeclaredLast(ns);
      if UniqueIds(ns) {
        UniqueInit(ns);
      }
    }
  }

  lemma {:induction false} RootPathUnique(ns: seq<Node>, p: seq<string>, q: seq<string>)
    requires UniqueIds(ns) && RootPath(ns, p) && RootPath(ns, q) && EndOf(p) == EndOf(q)
    ensures p == q
  {
    if p != [] {
      var a :| a in ns && a.id == Last(p) && a.parent == EndOf(Init(p));
      var b :| b in ns && b.id == Last(q) && b.parent == EndOf(Init(q));
      SameId(ns, a, b);
      RootPathUnique(ns, Init(p), Init(q));
      assert p == Init(p) + [Last(p)] && q == Init(q) + [Last(q)];
    }
  }

  lemma {:induction false} RootPathPrefix(ns: seq<Node>, p: seq<string>, k: nat)
    requires RootPath(ns, p) && k <= |p|
    ensures RootPath(ns, p[..k])
  {
    if k == |p| {
      assert p[..k] == p;
    } else {
      assert Init(p)[..k] == p[..k];
      RootPathPrefix(ns, Init(p), k);
    }
  }

  /** A root path never meets a name twice, so it is no longer than the list. */
  lemma RootPathBounded(ns: seq<Node>, p: seq<string>)
    requires UniqueIds(ns) && RootPath(ns, p)
    ensures Distinct(p) && |p| <= |ns|
    ensures forall x :: x in p ==> x in Declared(ns)
  {
    forall i, j | 0 <= i < j < |p| ensures p[i] != p[j] {
      if p[i] == p[j] {
        RootPathPrefix(ns, p, i + 1);
        RootPathPrefix(ns, p, j + 1);
        RootPathUnique(ns, p[..i + 1], p[..j + 1]);
      }
    }
    forall k | 0 <= k < |p| ensures p[k] in Declared(ns) {
      RootPathPrefix(ns, p, k + 1);
    }
    DistinctFits(p, Declared(ns));
    DeclaredSize(ns);
  }

  /** `cs` are children of the node that `path` ends in. */
  ghost predicate Hang(ns: seq<Node>, path: seq<string>, cs: seq<Node>) {
    && UniqueIds(ns)
    && RootPath(ns, path)
    && forall c :: c in cs ==> c in ns && c.parent == EndOf(path)
  }

  lemma Descend(ns: seq<Node>, path: seq<string>, c: Node)
    requires UniqueIds(ns) && RootPath(ns, path)
    requires c in ns && c.parent == EndOf(path)
    ensures Hang(ns, path + [c.id], SortedChildren(ns, Some(c.id)))
    ensures |path| < |path + [c.id]| <= |ns|
  {
    InitOfSnoc(path, c.id);
    RootPathBounded(ns, path + [c.id]);
  }

  /** The forest that a search visiting `cs` in turn lists, for any parent pointers at all. */
  ghost function Search(ns: seq<Node>, path: seq<string>, cs: seq<Node>): Forest
    requires Hang(ns, path, cs)
    decreases |ns| - |path|, |cs|
  {
    if cs == [] then Empty
    else
      Descend(ns, path, cs[0]);
      Tree(cs[0].id,
           Search(ns, path + [cs[0].id], SortedChildren(ns, Some(cs[0].id))),
           Search(ns, path, cs[1..]))
  }

  lemma FromRoots(ns: seq<Node>)
    requires UniqueIds(ns)
    ensures Hang(ns, [], SortedChildren(ns, None))
  {
  }

  /** The search from the roots. */
  ghost function Listed(ns: seq<Node>): Forest
    requires UniqueIds(ns)
  {
    FromRoots(ns);
    Search(ns, [], SortedChildren(ns, None))
  }

  /** The node with which a root path goes on below `path + [c.id]`. */
  lemma NextOnPath(ns: seq<Node>, path: seq<string>, q: seq<string>, c: Node) returns (d: Node)
    requires RootPath(ns, q) && path + [c.id] < q
    ensures d in SortedChildren(ns, Some(c.id)) && d.id == q[|path| + 1]
  {
    var k := |path| + 2;
    RootPathPrefix(ns, q, k);
    assert Init(q[..k]) == path + [c.id];
    d :| d in ns && d.id == Last(q[..k]) && d.parent == EndOf(Init(q[..k]));
  }

  /** Whatever a root path leads to is listed. */
  lemma {:induction false} SearchFinds(ns: seq<Node>, path: seq<string>, cs: seq<Node>, q: seq<string>, c: Node)
    requires Hang(ns, path, cs) && RootPath(ns, q)
    requires path <= q && |path| < |q| && c in cs && c.id == q[|path|]
    ensures Last(q) in Names(Search(ns, path, cs))
    decreases |q| - |path|, |cs|
  {
    hide RootPath, UniqueIds;
    Descend(ns, path, cs[0]);
    if c != cs[0] {
      assert c in cs[1..];
      SearchFinds(ns, path, cs[1..], q, c);
    } else if |q| == |path| + 1 {
      assert Last(q) == c.id;
    } else {
      var d := NextOnPath(ns, path, q, c);
      SearchFinds(ns, path + [c.id], SortedChildren(ns, Some(c.id)), q, d);
    }
  }

  /** Whatever is listed has a root path through one of the visited siblings. */
  lemma {:induction false} SearchWitness(ns: seq<Node>, path: seq<string>, cs: seq<Node>, x: string)
    returns (q: seq<string>, c: Node)
    requires Hang(ns, path, cs) && x in Names(Search(ns, path, cs))
    ensures RootPath(ns, q) && path <= q && |path| < |q| && Last(q) == x
    ensures c in cs && q[|path|] == c.id
    decreases |ns| - |path|, |cs|
  {
    Descend(ns, path, cs[0]);
    if x == cs[0].id {
      q, c := path + [x], cs[0];
      InitOfSnoc(path, x);
    } else if x in Names(Search(ns, path, cs[1..])) {
      q, c := SearchWitness(ns, path, cs[1..], x);
    } else {
      var d;
      q, d := SearchWitness(ns, path + [cs[0].id], SortedChildren(ns, Some(cs[0].id)), x);
      c := cs[0];
      assert q[|path|] == (path + [c.id])[|path|];
    }
  }

  /** No node is listed twice. */
  lemma {:induction false} SearchDistinct(ns: seq<Node>, path: seq<string>, cs: seq<Node>)
    requires Hang(ns, path, cs) && Distinct(cs)
    ensures Distinct(Preorder(Search(ns, path, cs)))
    decreases |ns| - |path|, |cs|
  {
    if cs != [] {
      Descend(ns, path, cs[0]);
      var deeper, kids := path + [cs[0].id], SortedChildren(ns, Some(cs[0].id));
      SortedChildrenDistinct(ns, Some(cs[0].id));
      SearchDistinct(ns, deeper, kids);
      SearchDistinct(ns, path, cs[1..]);
      SearchApart(ns, path, cs);
      var k, r := Search(ns, deeper, kids), Search(ns, path, cs[1..]);
      PreorderNames(k);
      PreorderNames(r);
      DistinctParts(cs[0].id, Preorder(k), Preorder(r));
    }
  }

  /** What hangs below the first sibling is listed neither before it nor with the others. */
  lemma SearchApart(ns: seq<Node>, path: seq<string>, cs: seq<Node>)
    requires Hang(ns, path, cs) && Distinct(cs) && cs != []
    ensures var f := Search(ns, path, cs);
            f.id !in Names(f.kids) && f.id !in Names(f.rest) && Names(f.kids) !! Names(f.rest)
  {
    var f := Search(ns, path, cs);
    Descend(ns, path, cs[0]);
    var deeper, kids := path + [cs[0].id], SortedChildren(ns, Some(cs[0].id));
    forall x | x in Names(f.rest) ensures x != f.id && x !in Names(f.kids) {
      var q, c := SearchWitness(ns, path, cs[1..], x);
      if x == f.id {
        RootPathUnique(ns, q, deeper);
        SameId(ns, c, cs[0]);
      } else if x in Names(f.kids) {
        var p, d := SearchWitness(ns, deeper, kids, x);
        RootPathUnique(ns, q, p);
        assert p[|path|] == deeper[|path|];
        SameId(ns, c, cs[0]);
      }
    }
    if f.id in Names(f.kids) {
      var p, d := SearchWitness(ns, deeper, kids, f.id);
      RootPathUnique(ns, p, deeper);
    }
  }

  lemma SortedChildrenDistinct(ns: seq<Node>, parent: Option<string>)
    requires UniqueIds(ns)
    ensures Distinct(SortedChildren(ns, parent))
  {
    ChildrenDistinct(ns, parent);
    SortPermutes(Children(ns, parent), NodeLe);
    SamePopulation(Children(ns, parent), SortedChildren(ns, parent));
  }

  lemma {:induction false} ChildrenDistinct(ns: seq<Node>, parent: Option<string>)
    requires UniqueIds(ns)
    ensures Distinct(Children(ns, parent))
  {
    if ns != [] {
      UniqueInit(ns);
      ChildrenDistinct(Init(ns), parent);
      ChildrenAreNodes(Init(ns), parent);
    }
  }

  // ------------------------------------------------------------ cycles

  /** A root path leads to `x`. */
  ghost predicate Grounded(ns: seq<Node>, x: string) {
    exists q :: RootPath(ns, q) && q != [] && Last(q) == x
  }

  /** The parent pointer of the node called `x`. */
  function ParentOf(ns: seq<Node>, x: string): Option<string> {
    if ns == [] then None else if ns[0].id == x then ns[0].parent else ParentOf(ns[1..], x)
  }

  /** Following parent pointers `k` times. */
  function Ancestor(ns: seq<Node>, x: Option<string>, k: nat): Option<string>
    decreases k
  {
    if k == 0 || x.None? then x else Ancestor(ns, ParentOf(ns, x.value), k - 1)
  }

  /** The chain of parents of `x` goes on for ever: it runs into a cycle. */
  ghost predicate Endless(ns: seq<Node>, x: string) {
    forall k: nat :: Ancestor(ns, Some(x), k).Some?
  }

  ghost predicate ParentsDeclared(ns: seq<Node>) {
    forall n :: n in ns && n.parent.Some? ==> n.parent.value in Declared(ns)
  }

  lemma {:induction false} ParentOfNode(ns: seq<Node>, x: string)
    requires x in Declared(ns)
    ensures exists n :: n in ns && n.id == x && n.parent == ParentOf(ns, x)
  {
    if ns[0].id != x {
      assert ns == [ns[0]] + ns[1..];
      ParentOfNode(ns[1..], x);
    }
  }

  /** A node is grounded exactly when some number of steps up leaves the list through a root. */
  lemma GroundedIffChainEnds(ns: seq<Node>, x: string)
    requires UniqueIds(ns) && ParentsDeclared(ns) && x in Declared(ns)
    ensures Grounded(ns, x) <==> !Endless(ns, x)
  {
    if Grounded(ns, x) {
      var q :| RootPath(ns, q) && q != [] && Last(q) == x;
      ClimbPath(ns, q);
    }
    if !Endless(ns, x) {
      var k: nat :| Ancestor(ns, Some(x), k).None?;
      var q := PathFromChain(ns, x, k);
    }
  }

  lemma {:induction false} ClimbPath(ns: seq<Node>, q: seq<string>)
    requires UniqueIds(ns) && RootPath(ns, q)
    ensures Ancestor(ns, EndOf(q), |q|).None?
  {
    if q != [] {
      var n :| n in ns && n.id == Last(q) && n.parent == EndOf(Init(q));
      ParentOfNode(ns, n.id);
      var m :| m in ns && m.id == n.id && m.parent == ParentOf(ns, n.id);
      SameId(ns, m, n);
      ClimbPath(ns, Init(q));
    }
  }

  lemma {:induction false} PathFromChain(ns: seq<Node>, x: string, k: nat) returns (q: seq<string>)
    requires UniqueIds(ns) && ParentsDeclared(ns) && x in Declared(ns)
    requires Ancestor(ns, Some(x), k).None?
    ensures RootPath(ns, q) && q != [] && Last(q) == x
    decreases k
  {
    ParentOfNode(ns, x);
    var n :| n in ns && n.id == x && n.parent == ParentOf(ns, x);
    if n.parent.None? {
      q := [] + [x];
      InitOfSnoc([], x);
      assert RootPath(ns, []) && n.parent == EndOf([]);
    } else {
      var p := PathFromChain(ns, n.parent.value, k - 1);
      q := p + [x];
      InitOfSnoc(p, x);
    }
  }

  /** The search lists exactly the grounded nodes. */
  lemma ListedIffGrounded(ns: seq<Node>, x: string)
    requires UniqueIds(ns)
    ensures x in Names(Listed(ns)) <==> Grounded(ns, x)
  {
    FromRoots(ns);
    if x in Names(Listed(ns)) {
      var q, c := SearchWitness(ns, [], SortedChildren(ns, None), x);
    }
    if Grounded(ns, x) {
      var q :| RootPath(ns, q) && q != [] && Last(q) == x;
      RootPathPrefix(ns, q, 1);
      assert Init(q[..1]) == [];
      var c :| c in ns && c.id == Last(q[..1]) && c.parent == EndOf(Init(q[..1]));
      SearchFinds(ns, [], SortedChildren(ns, None), q, c);
    }
  }

  lemma {:induction false} DistinctSize(s: seq<string>)
    requires Distinct(s)
    ensures |set x | x in s| == |s|
  {
    if s != [] {
      DistinctSize(Init(s));
      assert (set x | x in s) == (set x | x in Init(s)) + {Last(s)};
    }
  }

  lemma ListedDistinct(ns: seq<Node>)
    requires UniqueIds(ns)
    ensures Distinct(Preorder(Listed(ns)))
    ensures |Preorder(Listed(ns))| == |Names(Listed(ns))|
    ensures Names(Listed(ns)) <= Declared(ns)
  {
    var f := Listed(ns);
    FromRoots(ns);
    SortedChildrenDistinct(ns, None);
    SearchDistinct(ns, [], SortedChildren(ns, None));
    DistinctSize(Preorder(f));
    PreorderNames(f);
    assert (set x | x in Preorder(f)) == Names(f);
    forall x | x in Names(f) ensures x in Declared(ns) {
      var q, c := SearchWitness(ns, [], SortedChildren(ns, None), x);
      RootPathBounded(ns, q);
    }
  }

  /**
   * The search ends for any parent pointers, lists no node twice, and comes up
   * short exactly when some chain of parents never reaches a root.
   */
  lemma SearchShortIffCycle(ns: seq<Node>)
    requires UniqueIds(ns) && ParentsDeclared(ns)
    ensures Distinct(Preorder(Listed(ns)))
    ensures |Preorder(Listed(ns))| <= |ns|
    ensures |Preorder(Listed(ns))| < |ns| <==>
            exists x :: x in Declared(ns) && Endless(ns, x)
  {
    hide *;
    ListedDistinct(ns);
    DeclaredSize(ns);
    SubsetSize(Names(Listed(ns)), Declared(ns));
    forall x | x in Declared(ns)
      ensures x !in Names(Listed(ns)) <==> Endless(ns, x)
    {
      ListedIffGrounded(ns, x);
      GroundedIffChainEnds(ns, x);
    }
  }

  lemma {:induction false} SubsetSize<T>(a: set<T>, b: set<T>)
    requires a <= b
    ensures |a| <= |b| && (|a| < |b| <==> exists x :: x in b && x !in a)
  {
    assert |b| == |a| + |b - a| by { assert b == a + (b - a); }
    if x :| x in b - a {
      assert |b - a| == |b - a - {x}| + 1;
    }
  }
}
