/** Reference edges: three ways to insist on a strictly increasing list of relations. */
module Edges {
  import opened Common
  import opened Sorting
  import opened WireNodes

  datatype Edge = Edge(kind: string, source: string, target: string)

  /** The order of the tuples (kind, source, target). */
  predicate EdgeLe(a: Edge, b: Edge) {
    if a.kind != b.kind then StrLe(a.kind, b.kind)
    else if a.source != b.source then StrLe(a.source, b.source)
    else StrLe(a.target, b.target)
  }

  lemma EdgeLeOrder()
    ensures Transitive(EdgeLe) && Total(EdgeLe) && Antisymmetric(EdgeLe)
  {
    forall a: Edge, b: Edge ensures EdgeLe(a, b) || EdgeLe(b, a) {
      StrLeTotal(a.kind, b.kind);
      StrLeTotal(a.source, b.source);
      StrLeTotal(a.target, b.target);
    }
    forall a: Edge, b: Edge | EdgeLe(a, b) && EdgeLe(b, a) ensures a == b {
      EdgeLeAntisymmetric(a, b);
    }
    forall a: Edge, b: Edge, c: Edge | EdgeLe(a, b) && EdgeLe(b, c) ensures EdgeLe(a, c) {
      EdgeLeTransitive(a, b, c);
    }
  }

  lemma EdgeLeAntisymmetric(a: Edge, b: Edge)
    requires EdgeLe(a, b) && EdgeLe(b, a)
    ensures a == b
  {
    if a.kind != b.kind {
      StrLeAntisymmetric(a.kind, b.kind);
    } else if a.source != b.source {
      StrLeAntisymmetric(a.source, b.source);
    } else {
      StrLeAntisymmetric(a.target, b.target);
    }
  }

  lemma EdgeLeTransitive(a: Edge, b: Edge, c: Edge)
    requires EdgeLe(a, b) && EdgeLe(b, c)
    ensures EdgeLe(a, c)
  {
    if a.kind != b.kind || b.kind != c.kind {
      if a.kind == c.kind {
        StrLeAntisymmetric(a.kind, b.kind);
      }
      StrLeTotal(a.kind, a.kind);
      StrLeTotal(c.kind, c.kind);
      StrLeTransitive(a.kind, b.kind, c.kind);
    } else if a.source != b.source || b.source != c.source {
      if a.source == c.source {
        StrLeAntisymmetric(a.source, b.source);
      }
      StrLeTotal(a.source, a.source);
      StrLeTotal(c.source, c.source);
      StrLeTransitive(a.source, b.source, c.source);
    } else {
      StrLeTransitive(a.target, b.target, c.target);
    }
  }

  ghost predicate Endpoints(edges: seq<Edge>, ids: set<string>) {
    forall e :: e in edges ==> e.source in ids && e.target in ids
  }

  ghost predicate StrictlyIncreasing(edges: seq<Edge>) {
    forall i, j :: 0 <= i < j < |edges| ==> EdgeLe(edges[i], edges[j]) && edges[i] != edges[j]
  }

  /** For references: sources in order, and under one source the targets in order, none twice. */
  lemma IncreasingMeans(edges: seq<Edge>)
    requires forall e :: e in edges ==> e.kind == "reference"
    ensures StrictlyIncreasing(edges) <==>
            forall i, j :: 0 <= i < j < |edges| ==>
              && StrLe(edges[i].source, edges[j].source)
              && (edges[i].source == edges[j].source ==>
                    StrLe(edges[i].target, edges[j].target) && edges[i].target != edges[j].target)
  {
    forall i, j | 0 <= i < j < |edges|
      ensures EdgeLe(edges[i], edges[j]) && edges[i] != edges[j] <==>
              && StrLe(edges[i].source, edges[j].source)
              && (edges[i].source == edges[j].source ==>
                    StrLe(edges[i].target, edges[j].target) && edges[i].target != edges[j].target)
    {
      StrLeTotal(edges[i].source, edges[i].source);
    }
  }

  /** The elements of a list, each once, in order of first appearance. */
  function Dedup(edges: seq<Edge>): seq<Edge> {
    if edges == [] then []
    else
      var d := Dedup(Init(edges));
      if Last(edges) in d then d else d + [Last(edges)]
  }

  lemma {:induction false} DedupElements(edges: seq<Edge>)
    ensures Distinct(Dedup(edges))
    ensures forall e :: e in Dedup(edges) <==> e in edges
    ensures Distinct(edges) ==> Dedup(edges) == edges
  {
    if edges == [] {
    } else {
      DistinctConcat(Init(edges), [Last(edges)]);
      DistinctConcat(Dedup(Init(edges)), [Last(edges)]);
      assert Distinct([Last(edges)]);
      hide Distinct;
      DedupElements(Init(edges));
      assert edges == Init(edges) + [Last(edges)];
    }
  }

  const MAX_EDGES := 4096

  const EDGE_KEYS := {"kind", "source_id", "target_id"}

  /** The edge that one list element denotes by itself, if it denotes one. */
  function ReadEdge(raw: Json): (e: Option<Edge>)
    ensures e.Some? ==> e.value.kind == "reference" && IsToken(e.value.source) && IsToken(e.value.target)
  {
    if !HasKeys(raw, EDGE_KEYS) then None
    else
      var source, target := Token(raw.fields["source_id"]), Token(raw.fields["target_id"]);
      if source.Ok? && target.Ok? && raw.fields["kind"] == Str("reference")
      then Some(Edge("reference", source.value, target.value)) else None
  }

  /** One edge as the source process sends it. */
  function EdgeJson(e: Edge): Json {
    Object(map["kind" := Str(e.kind), "source_id" := Str(e.source), "target_id" := Str(e.target)])
  }

  function EdgesJson(es: seq<Edge>): (r: seq<Json>)
    ensures |r| == |es|
  {
    if es == [] then [] else EdgesJson(Init(es)) + [EdgeJson(Last(es))]
  }

  predicate Reference(e: Edge) {
    e.kind == "reference" && IsToken(e.source) && IsToken(e.target)
  }

  /** An element denotes an edge exactly when it is that edge as it is sent, and nothing besides. */
  lemma ReadEdgeIff(raw: Json, e: Edge)
    ensures ReadEdge(raw) == Some(e) <==> raw == EdgeJson(e) && Reference(e)
  {
    hide IsToken;
    if ReadEdge(raw) == Some(e) {
      assert raw.fields == EdgeJson(e).fields;
    }
  }

  lemma {:induction false} ReadEdgesIff(items: seq<Json>, es: seq<Edge>)
    ensures ReadEdges(items) == Some(es) <==> items == EdgesJson(es) && forall e :: e in es ==> Reference(e)
  {
    hide Reference, ReadEdge, EdgeJson;
    if items == [] || es == [] {
      assert items == [] ==> ReadEdges(items) == Some([]);
    } else {
      ReadEdgesIff(Init(items), Init(es));
      ReadEdgeIff(Last(items), Last(es));
      assert items == Init(items) + [Last(items)] && es == Init(es) + [Last(es)];
    }
  }

  /** What the source may send: increasing references between declared nodes, not too many. */
  ghost predicate Admissible(es: seq<Edge>, ids: set<string>) {
    && |es| <= MAX_EDGES && (forall e :: e in es ==> Reference(e))
    && Endpoints(es, ids) && StrictlyIncreasing(es)
  }

  lemma GoodIffSent(items: seq<Json>, ids: set<string>)
    requires |items| <= MAX_EDGES
    ensures forall es :: items == EdgesJson(es) && Admissible(es, ids) ==>
              ReadEdges(items) == Some(es) && GoodEdges(items, ids)
    ensures GoodEdges(items, ids) ==>
              items == EdgesJson(ReadEdges(items).value) && Admissible(ReadEdges(items).value, ids)
  {
    hide Reference, Endpoints, StrictlyIncreasing, EdgesJson, ReadEdges;
    forall es | items == EdgesJson(es) && Admissible(es, ids)
      ensures ReadEdges(items) == Some(es) && GoodEdges(items, ids)
    {
      ReadEdgesIff(items, es);
    }
    if GoodEdges(items, ids) {
      ReadEdgesIff(items, ReadEdges(items).value);
    }
  }

  function ReadEdges(items: seq<Json>): (es: Option<seq<Edge>>)
    ensures es.Some? ==> |es.value| == |items|
  {
    if items == [] then Some([])
    else
      match (ReadEdges(Init(items)), ReadEdge(Last(items)))
      case (Some(es), Some(e)) => Some(es + [e])
      case _ => None
  }

  lemma ReadOneEdge(items: seq<Json>, k: nat)
    requires k < |items| && ReadEdges(items[..k]).Some?
    ensures ReadEdges(items[..k + 1]) == if ReadEdge(items[k]).None? then None
                                         else Some(ReadEdges(items[..k]).value + [ReadEdge(items[k]).value])
  {
    assert Init(items[..k + 1]) == items[..k] && Last(items[..k + 1]) == items[k];
  }

  lemma {:induction false} ReadEdgesPrefix(items: seq<Json>, k: nat)
    requires k <= |items| && ReadEdges(items).Some?
    ensures ReadEdges(items[..k]).Some? && ReadEdges(items[..k]).value == ReadEdges(items).value[..k]
  {
    if k == |items| {
      assert items[..k] == items;
    } else {
      ReadEdgesPrefix(Init(items), k);
      assert items[..k] == Init(items)[..k];
    }
  }

  /** A list that denotes admissible edges in strictly increasing order. */
  ghost predicate GoodEdges(items: seq<Json>, ids: set<string>) {
    && ReadEdges(items).Some?
    && Endpoints(ReadEdges(items).value, ids)
    && StrictlyIncreasing(ReadEdges(items).value)
  }

  lemma GoodEdgesPrefix(items: seq<Json>, ids: set<string>, k: nat)
    requires k <= |items| && GoodEdges(items, ids)
    ensures GoodEdges(items[..k], ids)
  {
    ReadEdgesPrefix(items, k);
    var all, part := ReadEdges(items).value, ReadEdges(items[..k]).value;
    forall e | e in part ensures e.source in ids && e.target in ids {
      assert e in all;
    }
    forall i, j | 0 <= i < j < |part| ensures EdgeLe(part[i], part[j]) && part[i] != part[j] {
      assert part[i] == all[i] && part[j] == all[j];
    }
  }

  /** One more edge is good exactly when its ends are declared and it comes after the last one. */
  lemma GoodEdgesStep(items: seq<Json>, ids: set<string>, k: nat)
    requires k < |items| && GoodEdges(items[..k], ids)
    ensures var before, read := ReadEdges(items[..k]).value, ReadEdge(items[k]);
            GoodEdges(items[..k + 1], ids) <==>
            && read.Some? && read.value.source in ids && read.value.target in ids
            && (k == 0 || !EdgeLe(read.value, before[k - 1]))
    ensures ReadEdge(items[k]).Some? ==>
              ReadEdges(items[..k + 1]) == Some(ReadEdges(items[..k]).value + [ReadEdge(items[k]).value])
  {
    hide EdgeLe;
    ReadOneEdge(items, k);
    EdgeLeOrder();
    if ReadEdge(items[k]).Some? {
      var before, edge := ReadEdges(items[..k]).value, ReadEdge(items[k]).value;
      var after := before + [edge];
      assert edge in after && after[k] == edge;
      assert k > 0 ==> after[k - 1] == before[k - 1];
      if k == 0 || !EdgeLe(edge, before[k - 1]) {
        forall i | 0 <= i < k ensures EdgeLe(after[i], edge) && after[i] != edge {
          assert i < k - 1 ==> EdgeLe(before[i], before[k - 1]);
        }
      }
      if StrictlyIncreasing(after) && k > 0 {
        assert EdgeLe(after[k - 1], after[k]) && after[k - 1] != after[k];
      }
    }
  }

  /**
   * The gateway: each element must denote a reference between declared nodes and come
   * strictly after the one before it. The edges come back unchanged.
   */
  method Gateway(value: Json, ids: set<string>) returns (r: Result<seq<Edge>, GatewayError>)
    ensures r.Ok? <==> value.List? && |value.items| <= MAX_EDGES && GoodEdges(value.items, ids)
    ensures r.Ok? ==> Some(r.value) == ReadEdges(value.items)
    ensures r.Ok? ==> value == List(EdgesJson(r.value)) && Admissible(r.value, ids)
    ensures forall es :: value == List(EdgesJson(es)) && Admissible(es, ids) ==> r == Ok(es)
    ensures r == Err(BoundsExceeded) <==> value.List? && |value.items| > MAX_EDGES
  {
    hide GoodEdges, ReadEdges, EdgeLe, EdgesJson, Admissible;
    if !value.List? {
      return Err(SourceRejected);
    }
    var items := value.items;
    if |items| > MAX_EDGES {
      TooManyToAdmit(ids);
      return Err(BoundsExceeded);
    }
    GoodIffSent(items, ids);
    var previous: Option<Edge> := None;
    var result: seq<Edge> := [];
    NoEdgesYet(items, ids);
    for k := 0 to |items|
      invariant GoodEdges(items[..k], ids) && ReadEdges(items[..k]) == Some(result)
      invariant previous == if k == 0 then None else Some(result[k - 1])
    {
      GoodEdgesStep(items, ids, k);
      if !GoodEdges(items[..k + 1], ids) && GoodEdges(items, ids) {
        GoodEdgesPrefix(items, ids, k + 1);
      }
      var read := ReadEdge(items[k]);
      if read.None? {
        return Err(SourceRejected);
      }
      var edge := read.value;
      if edge.source !in ids || edge.target !in ids || (previous.Some? && EdgeLe(edge, previous.value)) {
        return Err(SourceRejected);
      }
      previous := Some(edge);
      result := result + [edge];
    }
    assert items[..|items|] == items;
    return Ok(result);
  }

  lemma TooManyToAdmit(ids: set<string>)
    ensures forall es :: Admissible(es, ids) ==> |EdgesJson(es)| <= MAX_EDGES
  {
  }

  lemma NoEdgesYet(items: seq<Json>, ids: set<string>)
    ensures GoodEdges(items[..0], ids) && ReadEdges(items[..0]) == Some([])
  {
  }

  /** The installed kit: the list must equal its sorted set of elements. */
  method Installed(edges: seq<Edge>, ids: set<string>) returns (ok: bool)
    ensures ok <==> Endpoints(edges, ids) && StrictlyIncreasing(edges)
  {
    for k := 0 to |edges|
      invariant Endpoints(edges[..k], ids)
    {
      assert edges[..k + 1] == edges[..k] + [edges[k]];
      if edges[k].source !in ids || edges[k].target !in ids {
        assert edges[k] in edges;
        return false;
      }
    }
    assert edges[..|edges|] == edges;
    SortedSetIffIncreasing(edges);
    return edges == Sort(Dedup(edges), EdgeLe);
  }

  /** The contract kit: no repetition, and the list must equal the sorted set. */
  method Contract(edges: seq<Edge>, ids: set<string>) returns (ok: bool)
    ensures ok <==> Endpoints(edges, ids) && StrictlyIncreasing(edges)
  {
    var seen: seq<Edge> := [];
    for k := 0 to |edges|
      invariant Endpoints(edges[..k], ids) && Distinct(edges[..k]) && seen == edges[..k]
    {
      assert edges[..k + 1] == edges[..k] + [edges[k]];
      if edges[k] in seen {
        var i :| 0 <= i < k && edges[i] == edges[k];
        return false;
      }
      seen := seen + [edges[k]];
      if edges[k].source !in ids || edges[k].target !in ids {
        assert edges[k] in edges;
        return false;
      }
    }
    assert edges[..|edges|] == edges;
    DedupElements(edges);
    SortedSetIffIncreasing(edges);
    return edges == Sort(seen, EdgeLe);
  }

  /** Equal to the sorted set of its elements: the same as strictly increasing. */
  lemma SortedSetIffIncreasing(edges: seq<Edge>)
    ensures edges == Sort(Dedup(edges), EdgeLe) <==> StrictlyIncreasing(edges)
  {
    EdgeLeOrder();
    DedupElements(edges);
    SortSorts(Dedup(edges), EdgeLe);
    SortPermutes(Dedup(edges), EdgeLe);
    if edges == Sort(Dedup(edges), EdgeLe) {
      SamePopulation(Dedup(edges), edges);
    }
    if StrictlyIncreasing(edges) {
      SortOfSorted(edges, EdgeLe);
    }
  }
}
