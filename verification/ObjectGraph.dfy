/** Python object graphs: containers shared, nested or cyclic, and how far they unfold. */
module ObjectGraph {
  import opened Common

  /** A scalar as far as the encoder looks at it, or a reference to a container. */
  datatype Value =
    | Null
    | Bool
    | Int(bits: nat)
    | Float(finite: bool)
    | Str(chars: nat)
    | Foreign
    | Ref(ref: int)

  datatype Key = Name(chars: nat) | OtherKey

  datatype Container = List(items: seq<Value>) | Dict(entries: seq<(Key, Value)>)

  type Heap = map<int, Container>

  function Values(c: Container): (vs: seq<Value>)
    ensures |vs| == if c.List? then |c.items| else |c.entries|
  {
    match c
    case List(items) => items
    case Dict(entries) => seq(|entries|, i requires 0 <= i < |entries| => entries[i].1)
  }

  /** Every reference, in the heap and in `v`, denotes a container. */
  ghost predicate Closed(h: Heap) {
    forall r, v :: r in h && v in Values(h[r]) && v.Ref? ==> v.ref in h
  }

  predicate Resolved(h: Heap, v: Value) {
    v.Ref? ==> v.ref in h
  }

  function Children(h: Heap, v: Value): seq<Value> {
    if v.Ref? && v.ref in h then Values(h[v.ref]) else []
  }

  lemma ChildResolved(h: Heap, v: Value, c: Value)
    requires Closed(h) && c in Children(h, v)
    ensures Resolved(h, c)
  {
  }

  /** `v` unfolds to a finite tree of at most the given height. */
  ghost predicate Fits(h: Heap, v: Value, height: int)
    decreases height
  {
    height >= 0 && forall c :: c in Children(h, v) ==> Fits(h, c, height - 1)
  }

  lemma {:induction false} FitsHigher(h: Heap, v: Value, low: int, high: int)
    requires Fits(h, v, low) && low <= high
    ensures Fits(h, v, high)
    decreases low
  {
    forall c | c in Children(h, v) ensures Fits(h, c, high - 1) {
      FitsHigher(h, c, low - 1, high - 1);
    }
  }

  // ------------------------------------------------------- cycles

  /** A chain of containers, each one an element of the one before. */
  ghost predicate Chain(h: Heap, path: seq<int>) {
    && (forall i :: 0 <= i < |path| ==> path[i] in h)
    && forall i :: 0 <= i < |path| - 1 ==> Ref(path[i + 1]) in Values(h[path[i]])
  }

  /** Some chain of containers starting at `v` meets a container twice. */
  ghost predicate ReachesCycle(h: Heap, v: Value) {
    exists path :: v.Ref? && path != [] && path[0] == v.ref && Chain(h, path) && !Distinct(path)
  }

  /** Heights fall along a chain. */
  lemma {:induction false} FitsAlong(h: Heap, path: seq<int>, i: nat, height: int)
    requires Chain(h, path) && i < |path| && Fits(h, Ref(path[0]), height)
    ensures Fits(h, Ref(path[i]), height - i)
  {
    if i > 0 {
      FitsAlong(h, path, i - 1, height);
      assert Ref(path[(i - 1) + 1]) in Children(h, Ref(path[i - 1]));
    }
  }

  /** A container that is its own descendant has no height at all. */
  lemma {:induction false} NoLoopFits(h: Heap, path: seq<int>, i: nat, j: nat, height: int)
    requires Chain(h, path) && i < j < |path| && path[i] == path[j]
    ensures !Fits(h, Ref(path[i]), height)
    decreases if height < 0 then 0 else height + 1
  {
    if Fits(h, Ref(path[i]), height) {
      var loop := path[i..];
      assert forall k :: 0 <= k < |loop| ==> loop[k] == path[i + k];
      assert Chain(h, loop) by {
        forall k | 0 <= k < |loop| - 1 ensures Ref(loop[k + 1]) in Values(h[loop[k]]) {
          assert Ref(path[(i + k) + 1]) in Values(h[path[i + k]]);
        }
      }
      FitsAlong(h, loop, j - i, height);
      NoLoopFits(h, path, i, j, height - (j - i));
    }
  }

  /** A value too high for `height` has a chain of `height + 1` containers below it. */
  lemma {:induction false} LongChain(h: Heap, v: Value, height: nat) returns (path: seq<int>)
    requires Closed(h) && Resolved(h, v) && !Fits(h, v, height)
    ensures v.Ref? && |path| == height + 1 && path[0] == v.ref && Chain(h, path)
    decreases height
  {
    var c :| c in Children(h, v) && !Fits(h, c, height - 1);
    path := [v.ref];
    if height > 0 {
      ChildResolved(h, v, c);
      var rest := LongChain(h, c, height - 1);
      path := path + rest;
      forall i | 0 <= i < |path| - 1 ensures Ref(path[i + 1]) in Values(h[path[i]]) {
        if i > 0 {
          assert Ref(rest[(i - 1) + 1]) in Values(h[rest[i - 1]]);
        } else {
          assert path[1] == c.ref;
        }
      }
    }
  }

  /** A chain with more links than there are containers repeats one. */
  lemma LongChainRepeats(h: Heap, path: seq<int>)
    requires Chain(h, path) && |path| > |h|
    ensures !Distinct(path)
  {
    assert |h.Keys| == |h|;
    if Distinct(path) {
      DistinctFits(path, h.Keys);
    }
  }

  /** A value has no finite height exactly when it reaches a cycle. */
  lemma EndlessIffCycle(h: Heap, v: Value)
    requires Closed(h) && Resolved(h, v)
    ensures (forall k :: !Fits(h, v, k)) <==> ReachesCycle(h, v)
    ensures !ReachesCycle(h, v) ==> Fits(h, v, |h|)
  {
    if !Fits(h, v, |h|) {
      var path := LongChain(h, v, |h|);
      LongChainRepeats(h, path);
      assert ReachesCycle(h, v);
    } else {
      assert Fits(h, v, |h|);
    }
    if ReachesCycle(h, v) {
      var path :| v.Ref? && path != [] && path[0] == v.ref && Chain(h, path) && !Distinct(path);
      var i, j :| 0 <= i < j < |path| && path[i] == path[j];
      forall k ensures !Fits(h, v, k) {
        if Fits(h, v, k) {
          FitsAlong(h, path, i, k);
          NoLoopFits(h, path, i, j, k - i);
        }
      }
    }
  }

  // ------------------------------------------------------- content

  /** Visited items and counted characters. */
  datatype Tally = Tally(items: nat, chars: nat)

  function Plus(a: Tally, b: Tally): Tally {
    Tally(a.items + b.items, a.chars + b.chars)
  }

  function KeyChars(entries: seq<(Key, Value)>): nat {
    if entries == [] then 0
    else KeyChars(Init(entries)) + if Last(entries).0.Name? then Last(entries).0.chars else 0
  }

  /** The characters a value contributes by itself: a string's own, a dictionary's keys. */
  function OwnChars(h: Heap, v: Value): nat {
    if v.Str? then v.chars
    else if v.Ref? && v.ref in h && h[v.ref].Dict? then KeyChars(h[v.ref].entries)
    else 0
  }

  /** Items and characters of the tree that `v` unfolds to, down to the given height. */
  function Total(h: Heap, v: Value, height: int): Tally
    decreases height, 0, 0
  {
    if height < 0 then Tally(0, 0)
    else Plus(Tally(1, OwnChars(h, v)), TotalAll(h, Children(h, v), height - 1))
  }

  function TotalAll(h: Heap, vs: seq<Value>, height: int): Tally
    decreases height, 1, |vs|
  {
    if vs == [] then Tally(0, 0)
    else Plus(TotalAll(h, Init(vs), height), Total(h, Last(vs), height))
  }

  lemma {:induction false} EachCountsOne(h: Heap, vs: seq<Value>, height: nat)
    ensures TotalAll(h, vs, height).items >= |vs|
  {
    if vs != [] {
      EachCountsOne(h, Init(vs), height);
    }
  }

  /** What JSON can carry: no foreign objects, finite floats, 64-bit integers, string keys. */
  predicate Plain(h: Heap, v: Value) {
    match v
    case Foreign => false
    case Float(finite) => finite
    case Int(bits) => bits <= 64
    case Ref(r) => r in h && h[r].Dict? ==> forall e :: e in h[r].entries ==> e.0.Name?
    case _ => true
  }

  ghost predicate Clean(h: Heap, v: Value, height: int)
    decreases height
  {
    height >= 0 ==> Plain(h, v) && forall c :: c in Children(h, v) ==> Clean(h, c, height - 1)
  }
}
