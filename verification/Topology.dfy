/**
 * The structural graph snapshot: flat node lists, ordered forests, and what it
 * means for a list to be the canonical preorder of a forest.
 */
module Topology {
  import opened Common

  datatype Kind = Page | Block

  datatype Node = Node(id: string, kind: Kind, parent: Option<string>, ordinal: int)

  /** An ordered forest: the first tree's root, that root's children, the remaining trees. */
  datatype Forest = Empty | Tree(id: string, kids: Forest, rest: Forest)

  function KindUnder(parent: Option<string>): Kind {
    if parent.None? then Page else Block
  }

  /** The preorder serialisation of siblings under `parent`, the first having ordinal `ord`. */
  function Flatten(f: Forest, parent: Option<string>, ord: nat): seq<Node> {
    match f
    case Empty => []
    case Tree(id, kids, rest) =>
      [Node(id, KindUnder(parent), parent, ord)]
      + Flatten(kids, Some(id), 0)
      + Flatten(rest, parent, ord + 1)
  }

  /** The snapshot of a whole graph: every tree is a page, everything below it a block. */
  function Snapshot(f: Forest): seq<Node> {
    Flatten(f, None, 0)
  }

  function Ids(ns: seq<Node>): (ids: seq<string>)
    ensures |ids| == |ns|
    ensures forall i :: 0 <= i < |ns| ==> ids[i] == ns[i].id
  {
    seq(|ns|, i requires 0 <= i < |ns| => ns[i].id)
  }

  /** The identifiers declared by a list. */
  function Declared(ns: seq<Node>): set<string> {
    set n | n in ns :: n.id
  }

  /** The identifiers of a forest. */
  function Names(f: Forest): set<string> {
    match f
    case Empty => {}
    case Tree(id, kids, rest) => {id} + Names(kids) + Names(rest)
  }

  /** Met in preorder, every identifier of `f` is new: not in `used` and not met before. */
  ghost predicate Fresh(f: Forest, used: set<string>) {
    match f
    case Empty => true
    case Tree(id, kids, rest) =>
      && id !in used
      && Fresh(kids, used + {id})
      && Fresh(rest, used + {id} + Names(kids))
  }

  /** The identifiers of a forest in preorder. */
  function Preorder(f: Forest): seq<string> {
    match f
    case Empty => []
    case Tree(id, kids, rest) => [id] + Preorder(kids) + Preorder(rest)
  }

  /** No block of `f` lies deeper than `limit` when the roots of `f` lie at `depth`. */
  ghost predicate WithinDepth(f: Forest, depth: nat, limit: nat) {
    match f
    case Empty => true
    case Tree(_, kids, rest) =>
      depth <= limit && WithinDepth(kids, depth + 1, limit) && WithinDepth(rest, depth, limit)
  }

  /** The nodes naming `parent`, in list order. */
  function Children(ns: seq<Node>, parent: Option<string>): seq<Node> {
    if ns == [] then []
    else Children(Init(ns), parent) + if Last(ns).parent == parent then [Last(ns)] else []
  }

  function Upto(path: seq<string>, id: string): (r: seq<string>)
    requires id in path
    ensures r != [] && r <= path && Last(r) == id
  {
    if path[0] == id then [id] else [path[0]] + Upto(path[1..], id)
  }

  /** The path from the root of the last tree to the last node of a canonical list. */
  function OpenPath(ns: seq<Node>): seq<string> {
    if ns == [] then []
    else
      var above := OpenPath(Init(ns));
      match Last(ns).parent
      case None => [Last(ns).id]
      case Some(p) => if p in above then Upto(above, p) + [Last(ns).id] else [Last(ns).id]
  }

  /** `n` is a legal continuation of the canonical list `before`. */
  ghost predicate Admits(before: seq<Node>, n: Node) {
    && n.id !in Declared(before)
    && n.kind == KindUnder(n.parent)
    && (n.parent.Some? ==> n.parent.value in OpenPath(before))
    && n.ordinal == |Children(before, n.parent)|
  }

  /** Every node legally continues the nodes before it. */
  ghost predicate Canonical(ns: seq<Node>) {
    ns == [] || (Canonical(Init(ns)) && Admits(Init(ns), Last(ns)))
  }

  /** No node lies more than `limit` blocks below its page. */
  ghost predicate Shallow(ns: seq<Node>, limit: nat) {
    ns == [] || (Shallow(Init(ns), limit) && |OpenPath(ns)| <= limit + 1)
  }

  // ---------------------------------------------------------------- basic facts

  lemma InitOfSnoc<T>(s: seq<T>, x: T)
    ensures Init(s + [x]) == s && Last(s + [x]) == x
  {
  }

  /** How the open path goes on. */
  lemma OpenPathSnoc(before: seq<Node>, n: Node)
    requires n.parent.Some? ==> n.parent.value in OpenPath(before)
    ensures OpenPath(before + [n])
            == (if n.parent.None? then [] else Upto(OpenPath(before), n.parent.value)) + [n.id]
  {
    InitOfSnoc(before, n);
  }

  lemma CanonicalSnoc(before: seq<Node>, n: Node)
    ensures Canonical(before + [n]) <==> Canonical(before) && Admits(before, n)
  {
    hide Admits;
    InitOfSnoc(before, n);
  }

  lemma ChildrenSnoc(before: seq<Node>, n: Node, p: Option<string>)
    ensures Children(before + [n], p) == Children(before, p) + if n.parent == p then [n] else []
  {
    InitOfSnoc(before, n);
  }

  lemma {:induction false} CanonicalPrefix(ns: seq<Node>, k: nat)
    requires Canonical(ns) && k <= |ns|
    ensures Canonical(ns[..k])
  {
    if k == |ns| {
      assert ns[..k] == ns;
    } else {
      CanonicalPrefix(Init(ns), k);
      assert Init(ns)[..k] == ns[..k];
    }
  }

  lemma DeclaredConcat(a: seq<Node>, b: seq<Node>)
    ensures Declared(a + b) == Declared(a) + Declared(b)
  {
  }

  lemma DeclaredSnoc(a: seq<Node>, n: Node)
    ensures Declared(a + [n]) == Declared(a) + {n.id}
  {
    assert Declared([n]) == {n.id};
    DeclaredConcat(a, [n]);
  }

  lemma DeclaredLast(ns: seq<Node>)
    requires ns != []
    ensures Declared(ns) == Declared(Init(ns)) + {Last(ns).id}
  {
    DeclaredSnoc(Init(ns), Last(ns));
    assert ns == Init(ns) + [Last(ns)];
  }

  lemma {:induction false} CanonicalUnique(ns: seq<Node>)
    requires Canonical(ns)
    ensures Distinct(Ids(ns))
  {
    if ns != [] {
      CanonicalUnique(Init(ns));
      var ids, before := Ids(ns), Ids(Init(ns));
      forall i, j | 0 <= i < j < |ns| ensures ids[i] != ids[j] {
        assert ids[i] == before[i] == Init(ns)[i].id;
        assert Init(ns)[i] in Init(ns);
        if j < |ns| - 1 {
          assert ids[j] == before[j];
        }
      }
    }
  }

  /** The open path names nodes of the list, each once, and ends in the last one. */
  lemma {:induction false} OpenPathNames(ns: seq<Node>)
    requires Canonical(ns)
    ensures forall x :: x in OpenPath(ns) ==> x in Declared(ns)
    ensures Distinct(OpenPath(ns))
    ensures ns != [] ==> OpenPath(ns) != [] && Last(OpenPath(ns)) == Last(ns).id
  {
    if ns != [] {
      var before := Init(ns);
      OpenPathNames(before);
      DeclaredLast(ns);
      if Last(ns).parent.Some? {
        var up := Upto(OpenPath(before), Last(ns).parent.value);
        assert forall i :: 0 <= i < |up| ==> up[i] == OpenPath(before)[i];
      }
    }
  }

  /** A prefix of a path of distinct names is what trimming at its last name leaves. */
  lemma {:induction false} UptoPrefix(path: seq<string>, spine: seq<string>)
    requires Distinct(path) && spine != [] && spine <= path
    ensures Last(spine) in path && Upto(path, Last(spine)) == spine
  {
    hide Distinct;
    assert path[|spine| - 1] == Last(spine);
    if |spine| == 1 {
      assert spine == [path[0]];
    } else {
      DistinctTail(path, |spine| - 1);
      assert Last(spine[1..]) == Last(spine);
      UptoPrefix(path[1..], spine[1..]);
      assert spine == [path[0]] + spine[1..];
    }
  }

  lemma DistinctTail(path: seq<string>, k: nat)
    requires Distinct(path) && 0 < k < |path|
    ensures Distinct(path[1..]) && path[0] != path[k]
  {
  }

  lemma {:induction false} ChildrenConcat(a: seq<Node>, b: seq<Node>, p: Option<string>)
    ensures Children(a + b, p) == Children(a, p) + Children(b, p)
  {
    if b == [] {
      assert a + b == a;
    } else {
      ChildrenConcat(a, Init(b), p);
      assert Init(a + b) == a + Init(b) && Last(a + b) == Last(b);
    }
  }

  lemma {:induction false} NoChildren(ns: seq<Node>, p: Option<string>)
    requires forall n :: n in ns ==> n.parent != p
    ensures Children(ns, p) == []
  {
    if ns != [] {
      assert Last(ns) in ns;
      NoChildren(Init(ns), p);
    }
  }

  lemma {:induction false} ChildrenAreNodes(ns: seq<Node>, p: Option<string>)
    ensures forall n :: n in Children(ns, p) <==> n in ns && n.parent == p
  {
    if ns != [] {
      ChildrenAreNodes(Init(ns), p);
      assert ns == Init(ns) + [Last(ns)];
    }
  }

  /** Siblings of a canonical list carry the ordinals 0, 1, 2, … in list order. */
  lemma {:induction false} CanonicalOrdinals(ns: seq<Node>, p: Option<string>)
    requires Canonical(ns)
    ensures forall i :: 0 <= i < |Children(ns, p)| ==> Children(ns, p)[i].ordinal == i
  {
    if ns != [] {
      CanonicalOrdinals(Init(ns), p);
    }
  }

  /** Every parent named in a canonical list is itself a node of the list. */
  lemma {:induction false} CanonicalParents(ns: seq<Node>)
    requires Canonical(ns)
    ensures forall n :: n in ns && n.parent.Some? ==> n.parent.value in Declared(ns)
  {
    if ns != [] {
      CanonicalParents(Init(ns));
      OpenPathNames(Init(ns));
      DeclaredLast(ns);
      assert ns == Init(ns) + [Last(ns)];
    }
  }

  lemma {:induction false} PreorderIsIds(f: Forest, parent: Option<string>, ord: nat)
    ensures Ids(Flatten(f, parent, ord)) == Preorder(f)
  {
    match f
    case Empty =>
    case Tree(id, kids, rest) =>
      PreorderIsIds(kids, Some(id), 0);
      PreorderIsIds(rest, parent, ord + 1);
      var a, b := Flatten(kids, Some(id), 0), Flatten(rest, parent, ord + 1);
      var head := [Node(id, KindUnder(parent), parent, ord)];
      assert Ids(head + a + b) == [id] + Ids(a) + Ids(b);
  }

  lemma {:induction false} FlattenDeclares(f: Forest, parent: Option<string>, ord: nat)
    ensures Declared(Flatten(f, parent, ord)) == Names(f)
  {
    match f
    case Empty =>
    case Tree(id, kids, rest) =>
      FlattenDeclares(kids, Some(id), 0);
      FlattenDeclares(rest, parent, ord + 1);
      var head := [Node(id, KindUnder(parent), parent, ord)];
      assert Declared(head) == {id};
      DeclaredConcat(head, Flatten(kids, Some(id), 0));
      DeclaredConcat(head + Flatten(kids, Some(id), 0), Flatten(rest, parent, ord + 1));
  }

  /** Nodes of a flattened forest hang below `parent` or below another of its nodes. */
  lemma {:induction false} FlattenParents(f: Forest, parent: Option<string>, ord: nat)
    ensures forall n :: n in Flatten(f, parent, ord) ==>
              n.parent == parent || (n.parent.Some? && n.parent.value in Names(f))
  {
    match f
    case Empty =>
    case Tree(id, kids, rest) =>
      FlattenParents(kids, Some(id), 0);
      FlattenParents(rest, parent, ord + 1);
  }

  function Width(f: Forest): nat {
    if f.Empty? then 0 else 1 + Width(f.rest)
  }

  /** The sibling roots of `f` as nodes. */
  function Roots(f: Forest, parent: Option<string>, ord: nat): seq<Node> {
    match f
    case Empty => []
    case Tree(id, _, rest) =>
      [Node(id, KindUnder(parent), parent, ord)] + Roots(rest, parent, ord + 1)
  }

  lemma {:induction false} RootsShape(f: Forest, parent: Option<string>, ord: nat)
    ensures |Roots(f, parent, ord)| == Width(f)
    ensures forall i :: 0 <= i < Width(f) ==> Roots(f, parent, ord)[i].ordinal == ord + i
  {
    if f.Tree? {
      RootsShape(f.rest, parent, ord + 1);
    }
  }

  lemma {:induction false} FreshAvoids(f: Forest, used: set<string>)
    requires Fresh(f, used)
    ensures Names(f) !! used
  {
    if f.Tree? {
      FreshAvoids(f.kids, used + {f.id});
      FreshAvoids(f.rest, used + {f.id} + Names(f.kids));
    }
  }

  /** The root, what hangs below it and the other trees share no names, with each other or with `used`. */
  lemma TreeApart(f: Forest, used: set<string>)
    requires f.Tree? && Fresh(f, used)
    ensures f.id !in used && f.id !in Names(f.kids) && f.id !in Names(f.rest)
    ensures Names(f.kids) !! Names(f.rest) && Names(f) !! used
  {
    FreshAvoids(f, used);
    FreshAvoids(f.kids, used + {f.id});
    FreshAvoids(f.rest, used + {f.id} + Names(f.kids));
  }

  lemma {:induction false} FreshMonotone(f: Forest, used: set<string>, less: set<string>)
    requires Fresh(f, used) && less <= used
    ensures Fresh(f, less)
  {
    if f.Tree? {
      FreshMonotone(f.kids, used + {f.id}, less + {f.id});
      FreshMonotone(f.rest, used + {f.id} + Names(f.kids), less + {f.id} + Names(f.kids));
    }
  }

  lemma {:induction false} PreorderNames(f: Forest)
    ensures forall x :: x in Preorder(f) <==> x in Names(f)
  {
    if f.Tree? {
      PreorderNames(f.kids);
      PreorderNames(f.rest);
    }
  }

  /** Fresh identifiers are pairwise distinct ones. */
  lemma {:induction false} FreshIsDistinct(f: Forest, used: set<string>)
    ensures Fresh(f, used) <==> Distinct(Preorder(f)) && Names(f) !! used
  {
    if f.Tree? {
      var k, r := Preorder(f.kids), Preorder(f.rest);
      FreshIsDistinct(f.kids, used + {f.id});
      FreshIsDistinct(f.rest, used + {f.id} + Names(f.kids));
      PreorderNames(f.kids);
      PreorderNames(f.rest);
      DistinctParts(f.id, k, r);
    }
  }

  lemma DistinctParts(x: string, a: seq<string>, b: seq<string>)
    ensures Distinct([x] + a + b) <==>
            Distinct(a) && Distinct(b) && x !in a && x !in b && (forall y :: y in a ==> y !in b)
  {
    DistinctConcat([x] + a, b);
    DistinctConcat([x], a);
  }

  /** The children of `p` in a serialised forest, part by part. */
  lemma ChildrenOfTree(f: Forest, parent: Option<string>, ord: nat, p: Option<string>)
    requires f.Tree?
    ensures Children(Flatten(f, parent, ord), p)
            == (if p == parent then [Node(f.id, KindUnder(parent), parent, ord)] else [])
               + Children(Flatten(f.kids, Some(f.id), 0), p)
               + Children(Flatten(f.rest, parent, ord + 1), p)
  {
    hide Children, KindUnder;
    var head := [Node(f.id, KindUnder(parent), parent, ord)];
    var a, b := Flatten(f.kids, Some(f.id), 0), Flatten(f.rest, parent, ord + 1);
    ChildrenConcat(head + a, b, p);
    ChildrenConcat(head, a, p);
    ChildrenOfNone(p);
    ChildrenSnoc([], head[0], p);
    assert [] + [head[0]] == head;
  }

  lemma ChildrenOfNone(p: Option<string>)
    ensures Children([], p) == []
  {
  }

  /** Nothing inside the first tree hangs from the surrounding parent, except its root. */
  lemma NoneBelowHang(f: Forest, parent: Option<string>)
    requires f.Tree?
    requires parent.Some? ==> parent.value !in Names(f)
    ensures Children(Flatten(f.kids, Some(f.id), 0), parent) == []
  {
    FlattenParents(f.kids, Some(f.id), 0);
    NoChildren(Flatten(f.kids, Some(f.id), 0), parent);
  }

  /** The children of the surrounding parent are exactly the sibling roots. */
  lemma {:induction false} FlattenChildren(f: Forest, parent: Option<string>, ord: nat)
    requires parent.Some? ==> parent.value !in Names(f)
    ensures Children(Flatten(f, parent, ord), parent) == Roots(f, parent, ord)
  {
    match f
    case Empty =>
    case Tree(id, kids, rest) =>
      FlattenChildren(rest, parent, ord + 1);
      NoneBelowHang(f, parent);
      ChildrenOfTree(f, parent, ord, parent);
  }

  // ---------------------------------------------------------------- sibling counters

  function Due(ordinals: map<Option<string>, int>, parent: Option<string>): int {
    if parent in ordinals then ordinals[parent] else 0
  }

  /** The sibling counters say how many children each parent has so far. */
  ghost predicate Counts(ordinals: map<Option<string>, int>, ns: seq<Node>) {
    forall p :: Due(ordinals, p) == |Children(ns, p)|
  }

  lemma DueOf(ordinals: map<Option<string>, int>, ns: seq<Node>, parent: Option<string>)
    requires Counts(ordinals, ns)
    ensures Due(ordinals, parent) == |Children(ns, parent)|
  {
  }

  lemma CountOneMore(ordinals: map<Option<string>, int>, ns: seq<Node>, n: Node)
    requires Counts(ordinals, ns)
    ensures Counts(ordinals[n.parent := Due(ordinals, n.parent) + 1], ns + [n])
  {
    InitOfSnoc(ns, n);
    assert Due(ordinals, n.parent) == |Children(ns, n.parent)|;
    forall p ensures Due(ordinals[n.parent := Due(ordinals, n.parent) + 1], p) == |Children(ns + [n], p)| {
      assert Due(ordinals, p) == |Children(ns, p)|;
    }
  }
}
