/** What the streaming gateway accepts: exactly the serialised forests, one forest each. */
module GatewayAgreement {
  import opened Common
  import opened Topology
  import opened ParentPointers
  import opened Forests
  import opened TopologyAgreement
  import W = WireNodes

  /** The gateway and the contract kit agree on every list of nodes within the limits. */
  lemma GatewayAgrees(items: seq<W.Json>)
    requires W.Read(items).Some?
    ensures W.Acceptable(W.List(items)) <==>
            && |items| <= W.MAX_NODES
            && Shallow(W.Read(items).value, W.MAX_BLOCK_DEPTH)
            && ContractAccepts(W.Read(items).value)
            && PagesAreRoots(W.Read(items).value)
  {
    ContractAgrees(W.Read(items).value);
  }

  ghost predicate Tokens(f: Forest) {
    forall x :: x in Names(f) ==> W.IsToken(x)
  }

  /** Every page forest within the limits is accepted, and comes back as it was sent. */
  lemma ForestAccepted(f: Forest)
    requires Distinct(Preorder(f)) && Tokens(f)
    requires |Preorder(f)| <= W.MAX_NODES && WithinDepth(f, 0, W.MAX_BLOCK_DEPTH)
    ensures W.Acceptable(W.List(W.NodesJson(Snapshot(f))))
    ensures W.Read(W.NodesJson(Snapshot(f))) == Some(Snapshot(f))
  {
    var ns := Snapshot(f);
    SnapshotIsCanonical(f, W.MAX_BLOCK_DEPTH);
    PreorderIsIds(f, None, 0);
    FlattenDeclares(f, None, 0);
    FlattenParents(f, None, 0);
    CanonicalKinds(ns);
    forall n | n in ns ensures W.Sendable(n) {
      OrdinalsNatural(ns, n);
      assert n.id in Declared(ns);
    }
    W.ReadIff(W.NodesJson(ns), ns);
  }

  lemma {:induction false} OrdinalsNatural(ns: seq<Node>, n: Node)
    requires Canonical(ns) && n in ns
    ensures n.ordinal >= 0
  {
    if n != Last(ns) {
      assert ns == Init(ns) + [Last(ns)];
      OrdinalsNatural(Init(ns), n);
    }
  }

  lemma SentAreTokens(f: Forest)
    requires forall n :: n in Snapshot(f) ==> W.Sendable(n)
    ensures Tokens(f)
  {
    FlattenDeclares(f, None, 0);
    forall x | x in Names(f) ensures W.IsToken(x) {
      assert x in Declared(Snapshot(f));
    }
  }

  /** Every accepted list is the serialisation of exactly one forest, of tokens, within the limits. */
  lemma AcceptedIsOneForest(items: seq<W.Json>) returns (f: Forest)
    requires W.Acceptable(W.List(items))
    ensures items == W.NodesJson(Snapshot(f)) && W.Read(items) == Some(Snapshot(f))
    ensures Tokens(f) && Distinct(Preorder(f)) && WithinDepth(f, 0, W.MAX_BLOCK_DEPTH)
    ensures forall g :: Distinct(Preorder(g)) && W.Read(items) == Some(Snapshot(g)) ==> g == f
  {
    var ns := W.Read(items).value;
    f := Rebuild(ns);
    W.ReadIff(items, ns);
    SentAreTokens(f);
    SnapshotIsCanonical(f, W.MAX_BLOCK_DEPTH);
    SnapshotRoundTrip(f);
    forall g | Distinct(Preorder(g)) && W.Read(items) == Some(Snapshot(g)) ensures g == f {
      SnapshotRoundTrip(g);
    }
  }

  // ------------------------------------------------- the ancestor stack

  lemma {:induction false} RootPathGrows(ns: seq<Node>, n: Node, path: seq<string>)
    requires RootPath(ns, path)
    ensures RootPath(ns + [n], path)
  {
    if path != [] {
      RootPathGrows(ns, n, Init(path));
      var m :| m in ns && m.id == Last(path) && m.parent == EndOf(Init(path));
      assert m in ns + [n];
    }
  }

  /** The open path down to the parent of a legal next node. */
  function Above(before: seq<Node>, n: Node): seq<string>
    requires n.parent.Some? ==> n.parent.value in OpenPath(before)
  {
    if n.parent.None? then [] else Upto(OpenPath(before), n.parent.value)
  }

  lemma AboveIsRootPath(before: seq<Node>, n: Node)
    requires RootPath(before, OpenPath(before))
    requires n.parent.Some? ==> n.parent.value in OpenPath(before)
    ensures RootPath(before + [n], Above(before, n)) && EndOf(Above(before, n)) == n.parent
  {
    var above := Above(before, n);
    RootPathPrefix(before, OpenPath(before), |above|);
    assert OpenPath(before)[..|above|] == above;
    RootPathGrows(before, n, above);
  }

  /** The stack of open ancestors is the path of parent pointers from a root to the last node. */
  lemma {:induction false} OpenPathIsRootPath(ns: seq<Node>)
    requires Canonical(ns)
    ensures RootPath(ns, OpenPath(ns))
    ensures ns != [] ==> OpenPath(ns) != [] && Last(OpenPath(ns)) == Last(ns).id
  {
    if ns != [] {
      var before, n := Init(ns), Last(ns);
      OpenPathIsRootPath(before);
      AboveIsRootPath(before, n);
      hide *;
      InitOfSnoc(Above(before, n), n.id);
      InitOfSnoc(before, n);
      assert ns == before + [n];
    }
  }
}
