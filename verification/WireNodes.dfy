/** The gateway's streaming check of an untrusted node list. */
module WireNodes {
  import opened Common
  import opened Topology

  datatype GatewayError = SourceRejected | BoundsExceeded

  /** A decoded JSON value as it arrives from the source process. */
  datatype Json =
    | Null
    | Bool(b: bool)
    | Int(i: int)
    | Float
    | Str(s: string)
    | List(items: seq<Json>)
    | Object(fields: map<string, Json>)

  const MAX_NODES := 1024
  const MAX_BLOCK_DEPTH := 64
  const MAX_TOKEN := 128

  predicate Alphanumeric(c: char) {
    'A' <= c <= 'Z' || 'a' <= c <= 'z' || '0' <= c <= '9'
  }

  predicate TokenChar(c: char) {
    Alphanumeric(c) || c == '.' || c == '_' || c == ':' || c == '-'
  }

  /** Opaque identifiers: nonempty, bounded, a fixed alphabet, an alphanumeric start. */
  predicate IsToken(s: string) {
    0 < |s| <= MAX_TOKEN && Alphanumeric(s[0]) && forall i :: 0 <= i < |s| ==> TokenChar(s[i])
  }

  function Token(value: Json): Result<string, GatewayError> {
    if value.Str? && IsToken(value.s) then Ok(value.s) else Err(SourceRejected)
  }

  predicate HasKeys(value: Json, keys: set<string>) {
    value.Object? && value.fields.Keys == keys
  }

  const NODE_KEYS := {"id", "kind", "parent_id", "ordinal"}

  /** The node that one list element denotes by itself, if it denotes one. */
  function ReadNode(raw: Json): (n: Option<Node>)
    ensures n.Some? ==> n.value.kind == KindUnder(n.value.parent) && n.value.ordinal >= 0
  {
    if !HasKeys(raw, NODE_KEYS) then None
    else
      var id, kind, parent, ordinal :=
        raw.fields["id"], raw.fields["kind"], raw.fields["parent_id"], raw.fields["ordinal"];
      if Token(id).Err? || !ordinal.Int? || ordinal.i < 0 then None
      else if kind == Str("page") && parent.Null? then Some(Node(id.s, Page, None, ordinal.i))
      else if kind == Str("block") && Token(parent).Ok? then
        Some(Node(id.s, Block, Some(parent.s), ordinal.i))
      else None
  }

  /** One node as the source process sends it. */
  function NodeJson(n: Node): Json {
    Object(map[
      "id" := Str(n.id),
      "kind" := Str(if n.kind == Page then "page" else "block"),
      "parent_id" := if n.parent.None? then Null else Str(n.parent.value),
      "ordinal" := Int(n.ordinal)])
  }

  function NodesJson(ns: seq<Node>): (r: seq<Json>)
    ensures |r| == |ns|
  {
    if ns == [] then [] else NodesJson(Init(ns)) + [NodeJson(Last(ns))]
  }

  predicate Sendable(n: Node) {
    && IsToken(n.id) && n.kind == KindUnder(n.parent) && n.ordinal >= 0
    && (n.parent.Some? ==> IsToken(n.parent.value))
  }

  /** An element denotes a node exactly when it is that node as it is sent, and nothing besides. */
  lemma ReadNodeIff(raw: Json, n: Node)
    ensures ReadNode(raw) == Some(n) <==> raw == NodeJson(n) && Sendable(n)
  {
    hide IsToken;
    if ReadNode(raw) == Some(n) {
      assert raw.fields == NodeJson(n).fields;
    }
  }

  /** And so a list denotes nodes exactly when it is those nodes as they are sent. */
  lemma {:induction false} ReadIff(items: seq<Json>, ns: seq<Node>)
    ensures Read(items) == Some(ns) <==> items == NodesJson(ns) && forall n :: n in ns ==> Sendable(n)
  {
    hide Sendable, ReadNode, NodeJson;
    if items == [] || ns == [] {
      assert items == [] ==> Read(items) == Some([]);
    } else {
      ReadIff(Init(items), Init(ns));
      ReadNodeIff(Last(items), Last(ns));
      assert items == Init(items) + [Last(items)] && ns == Init(ns) + [Last(ns)];
      InitOfSnoc(NodesJson(Init(ns)), NodeJson(Last(ns)));
      if Read(items).Some? {
        InitOfSnoc(Read(Init(items)).value, ReadNode(Last(items)).value);
      }
    }
  }

  function Read(items: seq<Json>): Option<seq<Node>> {
    if items == [] then Some([])
    else
      match (Read(Init(items)), ReadNode(Last(items)))
      case (Some(ns), Some(n)) => Some(ns + [n])
      case _ => None
  }

  /** A list that denotes nodes in canonical order, none of them too deep. */
  ghost predicate Good(items: seq<Json>) {
    && Read(items).Some?
    && Canonical(Read(items).value)
    && Shallow(Read(items).value, MAX_BLOCK_DEPTH)
  }

  ghost predicate Acceptable(value: Json) {
    value.List? && |value.items| <= MAX_NODES && Good(value.items)
  }

  /** The first problem of the list is a block one level too deep, at position `k`. */
  ghost predicate TooDeepAt(items: seq<Json>, k: nat) {
    && k < |items|
    && Good(items[..k])
    && ReadNode(items[k]).Some?
    && var before, n := Read(items[..k]).value, ReadNode(items[k]).value;
    && n.id !in Declared(before)
    && n.parent.Some?
    && n.parent.value in OpenPath(before)
    && |Upto(OpenPath(before), n.parent.value)| > MAX_BLOCK_DEPTH
  }

  lemma GoodInit(items: seq<Json>)
    requires Good(items) && items != []
    ensures Good(Init(items))
  {
    ReadLast(items);
  }

  lemma {:induction false} GoodPrefix(items: seq<Json>, k: nat)
    requires Good(items) && k <= |items|
    ensures Good(items[..k])
  {
    if k == |items| {
      assert items[..k] == items;
    } else {
      GoodInit(items);
      assert items[..k] == Init(items)[..k];
      GoodPrefix(Init(items), k);
    }
  }

  lemma PrefixOfPrefix(items: seq<Json>, j: nat, k: nat)
    requires k <= j <= |items| && Good(items[..j])
    ensures Good(items[..k])
  {
    GoodPrefix(items[..j], k);
    assert items[..j][..k] == items[..k];
  }

  lemma ReadLast(items: seq<Json>)
    requires items != [] && Read(items).Some?
    ensures Read(Init(items)).Some? && ReadNode(Last(items)).Some?
    ensures Read(items).value == Read(Init(items)).value + [ReadNode(Last(items)).value]
    ensures Init(Read(items).value) == Read(Init(items)).value
  {
  }

  /** How the spelled-out state changes when one more node is read. */
  lemma OneMore(items: seq<Json>, k: nat, n: Node)
    requires k < |items| && Good(items[..k]) && ReadNode(items[k]) == Some(n)
    ensures var before := Read(items[..k]).value;
            && Read(items[..k + 1]) == Some(before + [n])
            && Declared(before + [n]) == Declared(before) + {n.id}
            && (n.parent.None? ==> OpenPath(before + [n]) == [n.id])
            && (n.parent.Some? && n.parent.value in OpenPath(before) ==>
                  OpenPath(before + [n]) == Upto(OpenPath(before), n.parent.value) + [n.id])
  {
    var before := Read(items[..k]).value;
    assert Init(items[..k + 1]) == items[..k] && Last(items[..k + 1]) == items[k];
    InitOfSnoc(before, n);
    DeclaredSnoc(before, n);
  }

  lemma ReadOne(items: seq<Json>, k: nat)
    requires k < |items| && Read(items[..k]).Some?
    ensures Read(items[..k + 1]) == if ReadNode(items[k]).None? then None
                                    else Some(Read(items[..k]).value + [ReadNode(items[k]).value])
  {
    hide ReadNode;
    assert Init(items[..k + 1]) == items[..k] && Last(items[..k + 1]) == items[k];
  }

  lemma OneMoreNode(before: seq<Node>, n: Node)
    ensures Canonical(before + [n]) <==> Canonical(before) && Admits(before, n)
    ensures Shallow(before + [n], MAX_BLOCK_DEPTH) <==>
            Shallow(before, MAX_BLOCK_DEPTH) && |OpenPath(before + [n])| <= MAX_BLOCK_DEPTH + 1
  {
    hide OpenPath, Admits;
    InitOfSnoc(before, n);
  }

  /** What the check of element `k` must establish. */
  lemma GoodStep(items: seq<Json>, k: nat)
    requires k < |items| && Good(items[..k])
    ensures Good(items[..k + 1]) <==>
            && ReadNode(items[k]).Some?
            && Admits(Read(items[..k]).value, ReadNode(items[k]).value)
            && |OpenPath(Read(items[..k]).value + [ReadNode(items[k]).value])| <= MAX_BLOCK_DEPTH + 1
  {
    hide Read, ReadNode, OpenPath, Admits, Canonical, Shallow;
    ReadOne(items, k);
    if ReadNode(items[k]).Some? {
      OneMoreNode(Read(items[..k]).value, ReadNode(items[k]).value);
    }
  }

  /** A check that stops at element `k` tells whether the list is too deep there, or nowhere. */
  lemma StopAt(items: seq<Json>, k: nat)
    requires k < |items| && Good(items[..k]) && !Good(items[..k + 1])
    ensures !Good(items)
    ensures forall j: nat :: TooDeepAt(items, j) ==> j == k
  {
    if Good(items) {
      GoodPrefix(items, k + 1);
    }
    forall j: nat | TooDeepAt(items, j) ensures j == k {
      if j < k {
        PrefixOfPrefix(items, k, j + 1);
        DeepIsNotGood(items, j);
      } else if j > k {
        PrefixOfPrefix(items, j, k + 1);
      }
    }
  }

  lemma DeepIsNotGood(items: seq<Json>, k: nat)
    requires TooDeepAt(items, k)
    ensures !Good(items[..k + 1])
  {
    GoodStep(items, k);
    var before, n := Read(items[..k]).value, ReadNode(items[k]).value;
    InitOfSnoc(before, n);
  }

  lemma GoodIsNowhereDeep(items: seq<Json>)
    requires Good(items)
    ensures forall k: nat :: !TooDeepAt(items, k)
  {
    forall k: nat ensures !TooDeepAt(items, k) {
      if TooDeepAt(items, k) {
        GoodPrefix(items, k + 1);
        DeepIsNotGood(items, k);
      }
    }
  }

  lemma NothingYet(items: seq<Json>)
    ensures Good(items[..0]) && Read(items[..0]) == Some([])
    ensures Declared([]) == {} && OpenPath([]) == [] && Counts(map[], [])
  {
  }

  /** Element `k` lies too deep: its parent is open, with 64 blocks above it. */
  lemma DeepHere(items: seq<Json>, k: nat, before: seq<Node>, n: Node)
    requires k < |items| && Good(items[..k]) && Read(items[..k]) == Some(before) && ReadNode(items[k]) == Some(n)
    requires n.id !in Declared(before) && n.parent.Some? && n.parent.value in OpenPath(before)
    requires |Upto(OpenPath(before), n.parent.value)| > MAX_BLOCK_DEPTH
    ensures TooDeepAt(items, k)
  {
    hide Good, Read, OpenPath, Upto, Declared;
  }

  function IndexOf(path: seq<string>, id: string): (k: nat)
    requires id in path
    ensures k < |path| && path[k] == id && id !in path[..k]
    ensures path[..k + 1] == Upto(path, id)
  {
    if path[0] == id then 0 else 1 + IndexOf(path[1..], id)
  }

  /**
   * The streaming check: an open-ancestor stack, sibling counters and the names seen.
   * Accepts exactly the canonical shallow lists, returns them unchanged, and says
   * "bounds exceeded" exactly for an over-long list or a first fault that is depth.
   */
  method Nodes(value: Json) returns (r: Result<seq<Node>, GatewayError>)
    ensures r.Ok? <==> Acceptable(value)
    ensures r.Ok? ==> Some(r.value) == Read(value.items)
    ensures r.Ok? ==> value == List(NodesJson(r.value)) && forall n :: n in r.value ==> Sendable(n)
    ensures r == Err(BoundsExceeded) <==>
            value.List? && (|value.items| > MAX_NODES || exists k: nat :: TooDeepAt(value.items, k))
  {
    hide Good, Canonical, Shallow, Read, OpenPath, Children, Counts, Declared, ReadNode, Upto,
         NodesJson, Sendable;
    if !value.List? {
      return Err(SourceRejected);
    }
    var items := value.items;
    if |items| > MAX_NODES {
      return Err(BoundsExceeded);
    }
    NothingYet(items);
    var seen: set<string> := {};
    var ancestors: seq<string> := [];
    var ordinals: map<Option<string>, int> := map[];
    var result: seq<Node> := [];
    for k := 0 to |items|
      invariant Good(items[..k]) && Read(items[..k]) == Some(result)
      invariant seen == Declared(result)
      invariant ancestors == OpenPath(result)
      invariant Counts(ordinals, result)
    {
      GoodStep(items, k);
      if !Good(items[..k + 1]) {
        StopAt(items, k);
      }
      var read := ReadNode(items[k]);
      if read.None? {
        return Err(SourceRejected);
      }
      var node := read.value;
      if node.id in seen {
        return Err(SourceRejected);
      }
      if node.kind == Page {
        ancestors := [];
      } else {
        if node.parent.value !in ancestors {
          return Err(SourceRejected);
        }
        ancestors := ancestors[..IndexOf(ancestors, node.parent.value) + 1];
        if |ancestors| > MAX_BLOCK_DEPTH {
          DeepHere(items, k, result, node);
          DeepIsNotGood(items, k);
          return Err(BoundsExceeded);
        }
      }
      OneMore(items, k, node);
      DueOf(ordinals, result, node.parent);
      if node.ordinal != Due(ordinals, node.parent) {
        return Err(SourceRejected);
      }
      CountOneMore(ordinals, result, node);
      ordinals := ordinals[node.parent := node.ordinal + 1];
      seen := seen + {node.id};
      ancestors := ancestors + [node.id];
      result := result + [node];
    }
    assert items[..|items|] == items;
    GoodIsNowhereDeep(items);
    ReadIff(items, result);
    r := Ok(result);
  }
}
