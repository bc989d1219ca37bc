/** What the encoder accepts and why it refuses: exact cycles, two-sided budgets, byte ceiling. */
module Encoder {
  import opened Common
  import opened ObjectGraph
  import opened EncoderWalk
  import WireNodes

  /** No container of `active` has height `k`: each of them is an ancestor of something that high. */
  ghost predicate Above(h: Heap, active: set<int>, k: int) {
    forall a :: a in active ==> !Fits(h, Ref(a), k)
  }

  lemma AboveLower(h: Heap, active: set<int>, k: int, low: int)
    requires Above(h, active, k) && low <= k
    ensures Above(h, active, low)
  {
    forall a | a in active ensures !Fits(h, Ref(a), low) {
      if Fits(h, Ref(a), low) {
        FitsHigher(h, Ref(a), low, k);
      }
    }
  }

  /** The least height of a value that has a height. */
  lemma {:induction false} Least(h: Heap, v: Value, k: int) returns (low: int)
    requires Fits(h, v, k)
    ensures 0 <= low <= k && Fits(h, v, low) && !Fits(h, v, low - 1)
    decreases k
  {
    if Fits(h, v, k - 1) {
      low := Least(h, v, k - 1);
    } else {
      low := k;
    }
  }

  // ------------------------------------------------------- one step of each recursion

  lemma TotalStep(h: Heap, v: Value, k: nat)
    ensures Total(h, v, k) == Plus(Tally(1, OwnChars(h, v)), TotalAll(h, Children(h, v), k - 1))
  {
  }

  lemma TotalAllStep(h: Heap, vs: seq<Value>, k: int)
    ensures vs == [] ==> TotalAll(h, vs, k) == Tally(0, 0)
    ensures vs != [] ==> TotalAll(h, vs, k) == Plus(TotalAll(h, Init(vs), k), Total(h, Last(vs), k))
  {
  }

  lemma FitsStep(h: Heap, v: Value, k: int)
    ensures Fits(h, v, k) <==> k >= 0 && AllFit(h, Children(h, v), k - 1)
    ensures k >= 0 ==> (Clean(h, v, k) <==> Plain(h, v) && AllClean(h, Children(h, v), k - 1))
  {
  }

  ghost predicate AllFit(h: Heap, vs: seq<Value>, k: int) {
    forall c :: c in vs ==> Fits(h, c, k)
  }

  ghost predicate AllClean(h: Heap, vs: seq<Value>, k: int) {
    forall c :: c in vs ==> Clean(h, c, k)
  }

  lemma AllSplit(h: Heap, vs: seq<Value>, k: int)
    requires vs != []
    ensures AllFit(h, vs, k) <==> AllFit(h, Init(vs), k) && Fits(h, Last(vs), k)
    ensures AllClean(h, vs, k) <==> AllClean(h, Init(vs), k) && Clean(h, Last(vs), k)
  {
    assert vs == Init(vs) + [Last(vs)];
  }

  lemma NoneFit(h: Heap, k: int)
    ensures AllFit(h, [], k) && AllClean(h, [], k)
  {
  }

  lemma WalkAllStep(h: Heap, vs: seq<Value>, depth: nat, active: set<int>, below: nat, t: Tally, maxBytes: nat)
    ensures vs == [] ==> WalkAll(h, vs, depth, active, below, t, maxBytes) == Ok(t)
    ensures vs != [] ==>
              var last := WalkValue(h, Last(vs), depth, active, below + |vs| - 1, t, maxBytes);
              WalkAll(h, vs, depth, active, below, t, maxBytes)
              == if last.Err? then last else WalkAll(h, Init(vs), depth, active, below, last.value, maxBytes)
  {
  }

  /** Visiting a scalar: a fault of its own, or one more item with its own characters. */
  lemma WalkScalar(h: Heap, v: Value, depth: nat, active: set<int>, below: nat, t: Tally, maxBytes: nat)
    requires !v.Ref?
    ensures Children(h, v) == []
    ensures WalkValue(h, v, depth, active, below, t, maxBytes)
            == if t.items >= MAX_ITEMS then Err(TooManyItems)
               else if depth > MAX_DEPTH then Err(TooDeep)
               else if v.Foreign? then Err(ForeignObject)
               else if v.Float? && !v.finite then Err(NotFinite)
               else if v.Int? && v.bits > 64 then Err(WideInteger)
               else if t.chars + OwnChars(h, v) > maxBytes then Err(TooManyCharacters)
               else Ok(Plus(t, Tally(1, OwnChars(h, v))))
    ensures Plain(h, v) <==> !v.Foreign? && !(v.Float? && !v.finite) && !(v.Int? && v.bits > 64)
  {
    if t.chars > maxBytes {
      assert WithChars(Tally(t.items + 1, t.chars), 0, maxBytes).Err?;
    }
  }

  /** Visiting a container: the checks at its door, then its elements. */
  lemma WalkContainer(h: Heap, v: Value, depth: nat, active: set<int>, below: nat, t: Tally, maxBytes: nat)
    requires v.Ref? && v.ref in h
    ensures Children(h, v) == Values(h[v.ref])
    ensures WalkValue(h, v, depth, active, below, t, maxBytes)
            == if t.items >= MAX_ITEMS then Err(TooManyItems)
               else if depth > MAX_DEPTH then Err(TooDeep)
               else if v.ref in active then Err(Cycle)
               else if t.items + 1 + |Children(h, v)| + below > MAX_ITEMS then Err(Crowded)
               else if !Plain(h, v) then Err(OddKey)
               else if t.chars + OwnChars(h, v) > maxBytes then Err(TooManyCharacters)
               else WalkAll(h, Children(h, v), depth + 1, active + {v.ref}, below + 1,
                            Plus(t, Tally(1, OwnChars(h, v))), maxBytes)
  {
    assert Plus(t, Tally(1, OwnChars(h, v))) == Tally(t.items + 1, t.chars + OwnChars(h, v));
  }

  // ------------------------------------------------------- height does not matter

  /** Beyond its height a value has nothing left to count, and nothing left to object to. */
  lemma {:induction false} TotalStable(h: Heap, v: Value, low: int, high: int)
    requires Fits(h, v, low) && low <= high
    ensures Total(h, v, high) == Total(h, v, low)
    ensures Clean(h, v, high) <==> Clean(h, v, low)
    decreases low, 0, 0
  {
    hide Fits, Clean, Total, TotalAll, AllFit, AllClean, Plain, OwnChars, Children;
    FitsStep(h, v, low);
    FitsStep(h, v, high);
    TotalStep(h, v, low);
    TotalStep(h, v, high);
    TotalAllStable(h, Children(h, v), low - 1, high - 1);
  }

  lemma {:induction false} TotalAllStable(h: Heap, vs: seq<Value>, low: int, high: int)
    requires AllFit(h, vs, low) && low <= high
    ensures TotalAll(h, vs, high) == TotalAll(h, vs, low)
    ensures AllClean(h, vs, high) <==> AllClean(h, vs, low)
    decreases low, 1, |vs|
  {
    hide Fits, Clean, Total, TotalAll, AllFit, AllClean;
    TotalAllStep(h, vs, low);
    TotalAllStep(h, vs, high);
    if vs == [] {
      NoneFit(h, low);
      NoneFit(h, high);
    } else {
      AllSplit(h, vs, low);
      AllSplit(h, vs, high);
      TotalAllStable(h, Init(vs), low, high);
      NegativeFits(h, Last(vs), low);
      TotalStable(h, Last(vs), low, high);
    }
  }

  lemma NegativeFits(h: Heap, v: Value, k: int)
    requires Fits(h, v, k)
    ensures k >= 0
  {
  }

  // ------------------------------------------------------- acceptance

  /** Acceptance within the limits: the value unfolds, is clean, and the counts are its totals. */
  lemma {:induction false} WalkSound(h: Heap, v: Value, depth: nat, active: set<int>, below: nat,
                                     t: Tally, maxBytes: nat)
    requires Closed(h) && Resolved(h, v)
    requires WalkValue(h, v, depth, active, below, t, maxBytes).Ok?
    ensures depth <= MAX_DEPTH && Fits(h, v, MAX_DEPTH - depth) && Clean(h, v, MAX_DEPTH - depth)
    ensures WalkValue(h, v, depth, active, below, t, maxBytes).value == Plus(t, Total(h, v, MAX_DEPTH - depth))
    ensures t.items + Total(h, v, MAX_DEPTH - depth).items <= MAX_ITEMS
    ensures t.chars + Total(h, v, MAX_DEPTH - depth).chars <= maxBytes
    decreases Levels(depth), 0
  {
    hide Fits, Clean, Total, TotalAll, AllFit, AllClean, WalkValue, WalkAll, Plain, OwnChars, Children, Closed;
    var own := Tally(1, OwnChars(h, v));
    if v.Ref? {
      WalkContainer(h, v, depth, active, below, t, maxBytes);
      ElementsResolved(h, v);
      WalkAllSound(h, Children(h, v), depth + 1, active + {v.ref}, below + 1, Plus(t, own), maxBytes);
    } else {
      WalkScalar(h, v, depth, active, below, t, maxBytes);
      NoneFit(h, MAX_DEPTH - depth - 1);
      TotalAllStep(h, [], MAX_DEPTH - depth - 1);
    }
    TotalStep(h, v, MAX_DEPTH - depth);
    FitsStep(h, v, MAX_DEPTH - depth);
  }

  ghost predicate AllResolved(h: Heap, vs: seq<Value>) {
    forall c :: c in vs ==> Resolved(h, c)
  }

  lemma ElementsResolved(h: Heap, v: Value)
    requires Closed(h)
    ensures AllResolved(h, Children(h, v))
  {
  }

  lemma SplitResolved(h: Heap, vs: seq<Value>)
    requires AllResolved(h, vs) && vs != []
    ensures AllResolved(h, Init(vs)) && Resolved(h, Last(vs))
  {
    assert Last(vs) in vs;
  }

  lemma {:induction false} WalkAllSound(h: Heap, vs: seq<Value>, depth: nat, active: set<int>, below: nat,
                                        t: Tally, maxBytes: nat)
    requires Closed(h) && AllResolved(h, vs)
    requires WalkAll(h, vs, depth, active, below, t, maxBytes).Ok?
    requires t.items <= MAX_ITEMS && t.chars <= maxBytes
    ensures AllFit(h, vs, MAX_DEPTH - depth) && AllClean(h, vs, MAX_DEPTH - depth)
    ensures WalkAll(h, vs, depth, active, below, t, maxBytes).value == Plus(t, TotalAll(h, vs, MAX_DEPTH - depth))
    ensures t.items + TotalAll(h, vs, MAX_DEPTH - depth).items <= MAX_ITEMS
    ensures t.chars + TotalAll(h, vs, MAX_DEPTH - depth).chars <= maxBytes
    decreases Levels(depth), 1, |vs|
  {
    hide Fits, Clean, Total, TotalAll, AllFit, AllClean, WalkValue, WalkAll, AllResolved, Closed;
    WalkAllStep(h, vs, depth, active, below, t, maxBytes);
    TotalAllStep(h, vs, MAX_DEPTH - depth);
    if vs == [] {
      NoneFit(h, MAX_DEPTH - depth);
    } else {
      var last := WalkValue(h, Last(vs), depth, active, below + |vs| - 1, t, maxBytes);
      SplitResolved(h, vs);
      WalkSound(h, Last(vs), depth, active, below + |vs| - 1, t, maxBytes);
      WalkAllSound(h, Init(vs), depth, active, below, last.value, maxBytes);
      AllSplit(h, vs, MAX_DEPTH - depth);
    }
  }

  // ------------------------------------------------------- refusal

  const SLACK := MAX_ITEMS - MAX_DEPTH

  /** What a fault says about a value of height `k` met with these budgets. */
  ghost predicate Justified(f: Fault, clean: bool, depth: nat, k: int, reach: Tally, below: nat, maxBytes: nat) {
    match f
    case Cycle => false
    case TooManyItems => false
    case TooDeep => depth + k > MAX_DEPTH
    case Crowded => reach.items + below > SLACK + depth
    case TooManyCharacters => reach.chars > maxBytes
    case WideInteger => !clean
    case OddKey => !clean
    case NotFinite => !clean
    case ForeignObject => !clean
  }

  /** Counting the entries still waiting, `depth` of those below being leave markers, stays within the limit. */
  ghost predicate Room(t: Tally, below: nat, depth: nat, waiting: nat) {
    depth <= below && t.items + (below - depth) + waiting <= MAX_ITEMS
  }

  /** The outcome of visiting something that counts `total` is right or refused for a reason. */
  ghost predicate Fair(o: Outcome, clean: bool, depth: nat, k: int, t: Tally, total: Tally, below: nat, maxBytes: nat) {
    if o.Ok? then o.value == Plus(t, total) && Room(o.value, below, depth, 0)
    else Justified(o.error, clean, depth, k, Plus(t, total), below, maxBytes)
  }

  /**
   * A value that has a height, met outside its own descendants, is refused only
   * for a reason: never for a cycle or the running item count, for depth only if
   * its least height is too much, for items only if they exceed the slack.
   */
  lemma {:induction false} WalkFair(h: Heap, v: Value, depth: nat, active: set<int>, below: nat,
                                    t: Tally, maxBytes: nat, k: int)
    requires Closed(h) && Resolved(h, v)
    requires Fits(h, v, k) && !Fits(h, v, k - 1) && Above(h, active, k)
    requires Room(t, below, depth, 1)
    ensures Fair(WalkValue(h, v, depth, active, below, t, maxBytes),
                 Clean(h, v, k), depth, k, t, Total(h, v, k), below, maxBytes)
    decreases k, 1, 0
  {
    hide Fits, Clean, Total, TotalAll, AllFit, AllClean, WalkValue, WalkAll, Plain, OwnChars,
         Children, Closed, Above, AllResolved;
    FitsStep(h, v, k);
    TotalStep(h, v, k);
    if v.Ref? {
      WalkContainer(h, v, depth, active, below, t, maxBytes);
      EachCountsOne(h, Children(h, v), k);
      ElementsResolved(h, v);
      NotAboveItself(h, active, v, k);
      ChildrenCount(h, v, k);
      if depth <= MAX_DEPTH && v.ref !in active && t.items + 1 + |Children(h, v)| + below <= MAX_ITEMS {
        AllFair(h, Children(h, v), depth + 1, active + {v.ref}, below + 1,
                Plus(t, Tally(1, OwnChars(h, v))), maxBytes, k - 1);
      }
    } else {
      WalkScalar(h, v, depth, active, below, t, maxBytes);
      NoneFit(h, k - 1);
      TotalAllStep(h, [], k - 1);
      FitsStep(h, v, k - 1);
      NoneFit(h, k - 2);
    }
  }

  /** A value is none of the containers above it, and joins them for its elements. */
  lemma NotAboveItself(h: Heap, active: set<int>, v: Value, k: int)
    requires v.Ref? && Fits(h, v, k) && !Fits(h, v, k - 1) && Above(h, active, k)
    ensures v.ref !in active && Above(h, active + {v.ref}, k - 1)
  {
    assert v == Ref(v.ref);
    AboveLower(h, active, k, k - 1);
  }

  lemma ChildrenCount(h: Heap, v: Value, k: nat)
    requires AllFit(h, Children(h, v), k - 1)
    ensures TotalAll(h, Children(h, v), k - 1).items >= |Children(h, v)|
  {
    if k > 0 {
      EachCountsOne(h, Children(h, v), k - 1);
    } else if Children(h, v) != [] {
      NegativeFits(h, Children(h, v)[0], k - 1);
    }
  }

  lemma {:induction false} AllFair(h: Heap, vs: seq<Value>, depth: nat, active: set<int>, below: nat,
                                   t: Tally, maxBytes: nat, k: int)
    requires Closed(h) && AllResolved(h, vs) && AllFit(h, vs, k)
    requires Above(h, active, k)
    requires Room(t, below, depth, |vs|)
    ensures Fair(WalkAll(h, vs, depth, active, below, t, maxBytes),
                 AllClean(h, vs, k), depth, k, t, TotalAll(h, vs, k), below, maxBytes)
    decreases k, 2, |vs|
  {
    hide Fits, Clean, Total, TotalAll, AllFit, AllClean, WalkValue, WalkAll, Closed, Above, AllResolved;
    WalkAllStep(h, vs, depth, active, below, t, maxBytes);
    TotalAllStep(h, vs, k);
    if vs != [] {
      AllSplit(h, vs, k);
      SplitResolved(h, vs);
      var v := Last(vs);
      var low := Least(h, v, k);
      AboveLower(h, active, k, low);
      TotalStable(h, v, low, k);
      EachCountsOne(h, Init(vs), if k < 0 then 0 else k);
      InitCount(h, Init(vs), k);
      var o := WalkValue(h, v, depth, active, below + |vs| - 1, t, maxBytes);
      WalkFair(h, v, depth, active, below + |vs| - 1, t, maxBytes, low);
      if o.Ok? {
        AllFair(h, Init(vs), depth, active, below, o.value, maxBytes, k);
      }
    }
  }

  lemma InitCount(h: Heap, vs: seq<Value>, k: int)
    requires AllFit(h, vs, k)
    ensures TotalAll(h, vs, k).items >= |vs|
  {
    if k >= 0 {
      EachCountsOne(h, vs, k);
    } else if vs != [] {
      NegativeFits(h, vs[0], k);
    }
  }

  // ------------------------------------------------------- the walk as a whole

  ghost function WholeWalk(h: Heap, v: Value, maxBytes: nat): Outcome {
    WalkValue(h, v, 0, {}, 0, Tally(0, 0), maxBytes)
  }

  /** An accepted value is acyclic, clean, within depth 64, 65,536 items and the character budget. */
  lemma AcceptedWithin(h: Heap, v: Value, maxBytes: nat)
    requires Closed(h) && Resolved(h, v) && WholeWalk(h, v, maxBytes).Ok?
    ensures !ReachesCycle(h, v)
    ensures Fits(h, v, MAX_DEPTH) && Clean(h, v, MAX_DEPTH)
    ensures WholeWalk(h, v, maxBytes).value == Total(h, v, MAX_DEPTH)
    ensures Total(h, v, MAX_DEPTH).items <= MAX_ITEMS && Total(h, v, MAX_DEPTH).chars <= maxBytes
  {
    hide *;
    WholeIs(h, v, maxBytes);
    WalkSound(h, v, 0, {}, 0, Tally(0, 0), maxBytes);
    EndlessIffCycle(h, v);
    PlusZero(Total(h, v, MAX_DEPTH));
  }

  lemma WholeIs(h: Heap, v: Value, maxBytes: nat)
    ensures WholeWalk(h, v, maxBytes) == WalkValue(h, v, 0, {}, 0, Tally(0, 0), maxBytes)
  {
  }

  lemma PlusZero(t: Tally)
    ensures Plus(Tally(0, 0), t) == t
  {
  }

  /** A value without cycles is refused only for a limit it breaks or content JSON cannot carry. */
  lemma RefusedFairly(h: Heap, v: Value, maxBytes: nat, k: int)
    requires Closed(h) && Resolved(h, v) && Fits(h, v, k)
    requires WholeWalk(h, v, maxBytes).Err?
    ensures match WholeWalk(h, v, maxBytes).error
            case Cycle => false
            case TooManyItems => false
            case TooDeep => !Fits(h, v, MAX_DEPTH)
            case Crowded => Total(h, v, k).items > SLACK
            case TooManyCharacters => Total(h, v, k).chars > maxBytes
            case _ => !Clean(h, v, k)
  {
    hide Fits, Clean, Total, WalkValue, Closed;
    var low := Least(h, v, k);
    WalkFair(h, v, 0, {}, 0, Tally(0, 0), maxBytes, low);
    TotalStable(h, v, low, k);
    PlusZero(Total(h, v, low));
    if low > MAX_DEPTH && Fits(h, v, MAX_DEPTH) {
      FitsHigher(h, v, MAX_DEPTH, low - 1);
    }
  }

  /** Every clean value within depth 64, 65,472 items and the character budget is accepted. */
  lemma WithinIsAccepted(h: Heap, v: Value, maxBytes: nat, depth: nat)
    requires Closed(h) && Resolved(h, v) && depth <= MAX_DEPTH
    ensures Fits(h, v, depth) && Clean(h, v, depth)
            && Total(h, v, depth).items <= SLACK && Total(h, v, depth).chars <= maxBytes ==>
              WholeWalk(h, v, maxBytes) == Ok(Total(h, v, depth))
  {
    hide *;
    if && Fits(h, v, depth) && Clean(h, v, depth)
       && Total(h, v, depth).items <= SLACK && Total(h, v, depth).chars <= maxBytes {
      if WholeWalk(h, v, maxBytes).Err? {
        FitsHigher(h, v, depth, MAX_DEPTH);
        RefusedFairly(h, v, maxBytes, depth);
      } else {
        AcceptedWithin(h, v, maxBytes);
        TotalStable(h, v, depth, MAX_DEPTH);
      }
    }
  }

  /** The cycle fault is exact: it is raised only for values that reach a cycle, and those are never accepted. */
  lemma CycleExact(h: Heap, v: Value, maxBytes: nat)
    requires Closed(h) && Resolved(h, v)
    ensures WholeWalk(h, v, maxBytes) == Err(Cycle) ==> ReachesCycle(h, v)
    ensures ReachesCycle(h, v) ==> WholeWalk(h, v, maxBytes).Err?
  {
    hide *;
    if WholeWalk(h, v, maxBytes) == Err(Cycle) && !ReachesCycle(h, v) {
      EndlessIffCycle(h, v);
      RefusedFairly(h, v, maxBytes, |h|);
    }
    if WholeWalk(h, v, maxBytes).Ok? {
      AcceptedWithin(h, v, maxBytes);
    }
  }

  // ------------------------------------------------------- the byte ceiling

  const MAX_STDOUT_BYTES := 4194304
  const NEWLINE := 10

  /** What the JSON encoder yields: chunks of bytes, and whether it then failed. */
  datatype Encoding = Encoding(chunks: seq<seq<int>>, failed: bool)

  function Concat(chunks: seq<seq<int>>): seq<int> {
    if chunks == [] then [] else Concat(Init(chunks)) + Last(chunks)
  }

  lemma {:induction false} ConcatPrefix(chunks: seq<seq<int>>, k: nat)
    requires k <= |chunks|
    ensures |Concat(chunks[..k])| <= |Concat(chunks)|
  {
    if k == |chunks| {
      assert chunks[..k] == chunks;
    } else {
      assert Init(chunks)[..k] == chunks[..k];
      ConcatPrefix(Init(chunks), k);
    }
  }

  function Code(f: Fault): WireNodes.GatewayError {
    match f
    case Cycle => WireNodes.SourceRejected
    case OddKey => WireNodes.SourceRejected
    case NotFinite => WireNodes.SourceRejected
    case ForeignObject => WireNodes.SourceRejected
    case _ => WireNodes.BoundsExceeded
  }

  /** What comes of a walk and an encoding, in the order in which they are looked at. */
  function Encoded(walked: Outcome, maxBytes: int, encoding: Encoding): Result<seq<int>, WireNodes.GatewayError> {
    if walked.Err? then Err(Code(walked.error))
    else if |Concat(encoding.chunks)| + 1 > maxBytes then Err(WireNodes.BoundsExceeded)
    else if encoding.failed then Err(WireNodes.SourceRejected)
    else Ok(Concat(encoding.chunks) + [NEWLINE])
  }

  // ------------------------------------------------------- what an answer means

  /** `x` is `v` or inside it, at most `n` levels down. */
  ghost predicate Contains(h: Heap, v: Value, x: Value, n: nat)
    decreases n
  {
    x == v || (n > 0 && exists c :: c in Children(h, v) && Contains(h, c, x, n - 1))
  }

  /** The content a fault is about. */
  ghost predicate Offends(h: Heap, x: Value, f: Fault) {
    match f
    case WideInteger => x.Int? && x.bits > 64
    case NotFinite => x == Float(false)
    case ForeignObject => x == Foreign
    case OddKey => x.Ref? && x.ref in h && h[x.ref].Dict? && exists e :: e in h[x.ref].entries && e.0 == OtherKey
    case _ => true
  }

  ghost predicate Meets(h: Heap, v: Value, f: Fault) {
    exists x, n: nat :: Contains(h, v, x, n) && Offends(h, x, f)
  }

  lemma MeetsAbove(h: Heap, v: Value, c: Value, f: Fault)
    requires c in Children(h, v) && Meets(h, c, f)
    ensures Meets(h, v, f)
  {
    var x, n: nat :| Contains(h, c, x, n) && Offends(h, x, f);
    assert Contains(h, v, x, n + 1);
  }

  /** A refusal names content that is really there. */
  lemma {:induction false} RefusalMeets(h: Heap, v: Value, depth: nat, active: set<int>, below: nat,
                                        t: Tally, maxBytes: nat)
    requires Closed(h) && Resolved(h, v)
    ensures var r := WalkValue(h, v, depth, active, below, t, maxBytes); r.Err? ==> Meets(h, v, r.error)
    decreases Levels(depth), 0
  {
    hide Meets, Closed, Resolved, Plain, OwnChars, WithChars;
    var door := Door(h, v, depth, active, below, t, maxBytes);
    if door.Err? {
      RefusedAtDoor(h, v, depth, active, below, t, maxBytes);
    } else if v.Ref? {
      forall c | c in Values(h[v.ref]) ensures c in Children(h, v) && Resolved(h, c) {
        ChildResolved(h, v, c);
      }
      RefusalMeetsAny(h, Values(h[v.ref]), depth + 1, active + {v.ref}, below + 1, door.value, maxBytes);
      var r := WalkValue(h, v, depth, active, below, t, maxBytes);
      if r.Err? {
        var c :| c in Values(h[v.ref]) && Meets(h, c, r.error);
        MeetsAbove(h, v, c, r.error);
      }
    }
  }

  lemma {:induction false} RefusalMeetsAny(h: Heap, vs: seq<Value>, depth: nat, active: set<int>, below: nat,
                                           t: Tally, maxBytes: nat)
    requires Closed(h) && forall c :: c in vs ==> Resolved(h, c)
    ensures var r := WalkAll(h, vs, depth, active, below, t, maxBytes);
            r.Err? ==> exists c :: c in vs && Meets(h, c, r.error)
    decreases Levels(depth), 1, |vs|
  {
    hide Meets, Closed, Resolved;
    if vs != [] {
      RefusalMeets(h, Last(vs), depth, active, below + |vs| - 1, t, maxBytes);
      var first := WalkValue(h, Last(vs), depth, active, below + |vs| - 1, t, maxBytes);
      if first.Ok? {
        RefusalMeetsAny(h, Init(vs), depth, active, below, first.value, maxBytes);
      }
    }
  }

  lemma RefusedAtDoor(h: Heap, v: Value, depth: nat, active: set<int>, below: nat, t: Tally, maxBytes: nat)
    requires Resolved(h, v) && Door(h, v, depth, active, below, t, maxBytes).Err?
    ensures Meets(h, v, Door(h, v, depth, active, below, t, maxBytes).error)
  {
    hide OwnChars;
    var f := Door(h, v, depth, active, below, t, maxBytes).error;
    assert Contains(h, v, v, 0) && Offends(h, v, f);
  }

  /**
   * What each answer means. A value that reaches a cycle is refused, as a bad source where the cycle
   * is what was met; no other is called a bad source but for an odd key, a float that is not finite,
   * a foreign object or a failed encoding, and none without a cycle out of bounds but for a limit it
   * breaks or an integer of more than 64 bits.
   */
  lemma AnswersAreFair(h: Heap, v: Value, maxBytes: nat, encoding: Encoding)
    requires Closed(h) && Resolved(h, v)
    ensures var walked, r := WholeWalk(h, v, maxBytes), Encoded(WholeWalk(h, v, maxBytes), maxBytes, encoding);
            && (ReachesCycle(h, v) ==> r.Err?)
            && (walked == Err(Cycle) ==> r == Err(WireNodes.SourceRejected))
            && (r.Ok? ==> r.value == Concat(encoding.chunks) + [10] && |r.value| <= maxBytes && !encoding.failed)
            && (r == Err(WireNodes.SourceRejected) ==>
                  || ReachesCycle(h, v) || Meets(h, v, OddKey) || Meets(h, v, NotFinite) || Meets(h, v, ForeignObject)
                  || encoding.failed)
    ensures Encoded(WholeWalk(h, v, maxBytes), maxBytes, encoding) == Err(WireNodes.BoundsExceeded) ==>
              forall k :: Fits(h, v, k) ==>
                || !Fits(h, v, MAX_DEPTH) || Total(h, v, k).items > SLACK || Total(h, v, k).chars > maxBytes
                || Meets(h, v, WideInteger) || |Concat(encoding.chunks)| + 1 > maxBytes
  {
    hide Fits, Clean, Total, Closed, WholeWalk, ReachesCycle, Concat, Meets;
    CycleExact(h, v, maxBytes);
    WholeIs(h, v, maxBytes);
    RefusalMeets(h, v, 0, {}, 0, Tally(0, 0), maxBytes);
    forall k | Fits(h, v, k) && WholeWalk(h, v, maxBytes).Err?
      ensures match WholeWalk(h, v, maxBytes).error
              case Cycle => false
              case TooManyItems => false
              case TooDeep => !Fits(h, v, MAX_DEPTH)
              case Crowded => Total(h, v, k).items > SLACK
              case TooManyCharacters => Total(h, v, k).chars > maxBytes
              case _ => true
    {
      RefusedFairly(h, v, maxBytes, k);
    }
  }

  /**
   * The whole encoder. Success is the encoder's bytes and one newline, never more
   * than `maxBytes` together; going over the ceiling at any chunk is the refusal.
   */
  method Encode(h: Heap, value: Value, maxBytes: int, encoding: Encoding)
    returns (r: Result<seq<int>, WireNodes.GatewayError>)
    requires Closed(h) && Resolved(h, value)
    ensures !(0 < maxBytes <= MAX_STDOUT_BYTES) ==> r == Err(WireNodes.BoundsExceeded)
    ensures 0 < maxBytes <= MAX_STDOUT_BYTES ==>
              r == Encoded(WholeWalk(h, value, maxBytes), maxBytes, encoding)
    ensures r.Ok? ==> 0 < |r.value| <= maxBytes
  {
    if !(0 < maxBytes <= MAX_STDOUT_BYTES) {
      return Err(WireNodes.BoundsExceeded);
    }
    var walked, _ := Walk(h, value, maxBytes);
    WholeIs(h, value, maxBytes);
    hide *;
    if walked.Err? {
      return Err(Code(walked.error));
    }
    var encoded := [];
    for k := 0 to |encoding.chunks|
      invariant encoded == Concat(encoding.chunks[..k])
      invariant |encoded| + 1 <= maxBytes
    {
      ConcatStep(encoding.chunks, k);
      if |encoded| + |encoding.chunks[k]| + 1 > maxBytes {
        ConcatPrefix(encoding.chunks, k + 1);
        return Err(WireNodes.BoundsExceeded);
      }
      encoded := encoded + encoding.chunks[k];
    }
    assert encoding.chunks[..|encoding.chunks|] == encoding.chunks;
    if encoding.failed {
      return Err(WireNodes.SourceRejected);
    }
    return Ok(encoded + [NEWLINE]);
  }

  lemma ConcatStep(chunks: seq<seq<int>>, k: nat)
    requires k < |chunks|
    ensures Concat(chunks[..k + 1]) == Concat(chunks[..k]) + chunks[k]
    ensures chunks[..0] == []
  {
    assert Init(chunks[..k + 1]) == chunks[..k];
  }

  /** The character check costs nothing: what it refuses, an encoder of a byte per character could not fit. */
  lemma CharactersImplyBytes(h: Heap, v: Value, maxBytes: nat, k: int, encoding: Encoding)
    requires Closed(h) && Resolved(h, v) && Fits(h, v, k)
    requires |Concat(encoding.chunks)| >= Total(h, v, k).chars
    requires WholeWalk(h, v, maxBytes) == Err(TooManyCharacters)
    ensures |Concat(encoding.chunks)| + 1 > maxBytes
  {
    hide *;
    RefusedFairly(h, v, maxBytes, k);
  }
}
