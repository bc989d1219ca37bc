/**
 * The bounded structure check before serialisation: as a recursion over the
 * value, and as the explicit-stack loop that must compute the same.
 */
module EncoderWalk {
  import opened Common
  import opened ObjectGraph

  const MAX_ITEMS := 65536
  const MAX_DEPTH := 64

  datatype Fault =
    | TooManyItems | TooDeep | Crowded | TooManyCharacters | WideInteger
    | Cycle | OddKey | NotFinite | ForeignObject

  type Outcome = Result<Tally, Fault>

  function Levels(depth: nat): nat {
    if depth > MAX_DEPTH then 0 else MAX_DEPTH + 1 - depth
  }

  function WithChars(t: Tally, more: nat, maxBytes: nat): Outcome {
    if t.chars + more > maxBytes then Err(TooManyCharacters) else Ok(t.(chars := t.chars + more))
  }

  /** The checks of `v` itself, met at `depth` inside `active` with `below` entries waiting, and its count. */
  function Door(h: Heap, v: Value, depth: nat, active: set<int>, below: nat, t: Tally, maxBytes: nat): Outcome {
    var seen := Tally(t.items + 1, t.chars);
    if seen.items > MAX_ITEMS then Err(TooManyItems)
    else if depth > MAX_DEPTH then Err(TooDeep)
    else match v
      case Ref(r) =>
        if r !in h then Err(ForeignObject)
        else if r in active then Err(Cycle)
        else if seen.items + |Values(h[r])| + below > MAX_ITEMS then Err(Crowded)
        else if !Plain(h, v) then Err(OddKey)
        else WithChars(seen, OwnChars(h, v), maxBytes)
      case Str(chars) => WithChars(seen, chars, maxBytes)
      case Int(bits) => if bits > 64 then Err(WideInteger) else WithChars(seen, 0, maxBytes)
      case Float(finite) => if !finite then Err(NotFinite) else WithChars(seen, 0, maxBytes)
      case Foreign => Err(ForeignObject)
      case _ => WithChars(seen, 0, maxBytes)
  }

  /** Visiting `v`: its own checks, then its elements one level deeper. */
  function WalkValue(h: Heap, v: Value, depth: nat, active: set<int>, below: nat, t: Tally, maxBytes: nat): Outcome
    decreases Levels(depth), 0
  {
    match Door(h, v, depth, active, below, t, maxBytes)
    case Err(f) => Err(f)
    case Ok(u) =>
      if v.Ref? then WalkAll(h, Values(h[v.ref]), depth + 1, active + {v.ref}, below + 1, u, maxBytes) else Ok(u)
  }

  /** Visiting the elements of a container, the last one first. */
  function WalkAll(h: Heap, vs: seq<Value>, depth: nat, active: set<int>, below: nat, t: Tally, maxBytes: nat): Outcome
    decreases Levels(depth), 1, |vs|
  {
    if vs == [] then Ok(t)
    else
      match WalkValue(h, Last(vs), depth, active, below + |vs| - 1, t, maxBytes)
      case Err(f) => Err(f)
      case Ok(u) => WalkAll(h, Init(vs), depth, active, below, u, maxBytes)
  }

  // ------------------------------------------------------- the loop

  datatype Entry = Entry(value: Value, depth: nat, leaving: bool)

  /** What a stack still has to do, read as the recursion. */
  ghost function Resume(h: Heap, stack: seq<Entry>, active: set<int>, t: Tally, maxBytes: nat): Outcome {
    if stack == [] then Ok(t)
    else
      var top := Last(stack);
      if top.leaving then
        Resume(h, Init(stack), if top.value.Ref? then active - {top.value.ref} else active, t, maxBytes)
      else
        match WalkValue(h, top.value, top.depth, active, |stack| - 1, t, maxBytes)
        case Err(f) => Err(f)
        case Ok(u) => Resume(h, Init(stack), active, u, maxBytes)
  }

  function Entries(vs: seq<Value>, depth: nat): (es: seq<Entry>)
    ensures |es| == |vs|
    ensures forall i :: 0 <= i < |vs| ==> es[i] == Entry(vs[i], depth, false)
  {
    seq(|vs|, i requires 0 <= i < |vs| => Entry(vs[i], depth, false))
  }

  /** Entries pushed one by one are worked off as the elements of a container. */
  lemma {:induction false} ResumeEntries(
      h: Heap, stack: seq<Entry>, vs: seq<Value>, depth: nat, active: set<int>, t: Tally, maxBytes: nat)
    ensures Resume(h, stack + Entries(vs, depth), active, t, maxBytes)
            == match WalkAll(h, vs, depth, active, |stack|, t, maxBytes)
               case Err(f) => Err(f)
               case Ok(u) => Resume(h, stack, active, u, maxBytes)
    decreases |vs|
  {
    var all := stack + Entries(vs, depth);
    if vs == [] {
      assert all == stack;
    } else {
      assert Init(all) == stack + Entries(Init(vs), depth);
      assert Last(all) == Entry(Last(vs), depth, false);
      var first := WalkValue(h, Last(vs), depth, active, |stack| + |vs| - 1, t, maxBytes);
      if first.Ok? {
        ResumeEntries(h, stack, Init(vs), depth, active, first.value, maxBytes);
      }
    }
  }

  /** The stack after entering container `v`: a leave marker, then its elements. */
  function Entered(h: Heap, stack: seq<Entry>, v: Value, depth: nat): (r: seq<Entry>)
    requires v.Ref? && v.ref in h
    ensures |r| == |stack| + 1 + |Values(h[v.ref])|
  {
    stack + [Entry(v, depth, true)] + Entries(Values(h[v.ref]), depth + 1)
  }

  /** A container's leave marker and elements on the stack do what visiting it does. */
  lemma ResumeContainer(h: Heap, stack: seq<Entry>, v: Value, depth: nat, active: set<int>, t: Tally, maxBytes: nat)
    requires v.Ref? && v.ref in h && v.ref !in active
    ensures Resume(h, Entered(h, stack, v, depth), active + {v.ref}, t, maxBytes)
            == match WalkAll(h, Values(h[v.ref]), depth + 1, active + {v.ref}, |stack| + 1, t, maxBytes)
               case Err(f) => Err(f)
               case Ok(u) => Resume(h, stack, active, u, maxBytes)
  {
    var marked := stack + [Entry(v, depth, true)];
    ResumeEntries(h, marked, Values(h[v.ref]), depth + 1, active + {v.ref}, t, maxBytes);
    assert Init(marked) == stack;
    assert active + {v.ref} - {v.ref} == active;
  }

  /** The containers that the stack has entered and not left, outermost first. */
  function Open(stack: seq<Entry>): seq<int> {
    if stack == [] then []
    else Open(Init(stack)) + if Last(stack).leaving && Last(stack).value.Ref? then [Last(stack).value.ref] else []
  }

  /** `v` is the root, or an element of the innermost open container. */
  ghost predicate Inside(h: Heap, root: Value, open: seq<int>, v: Value) {
    if open == [] then v == root else v in Children(h, Ref(Last(open)))
  }

  /** Every entry lies as deep as there are open containers below it, and inside the last of them. */
  ghost predicate Nested(h: Heap, root: Value, stack: seq<Entry>) {
    stack == [] ||
    (&& Nested(h, root, Init(stack))
     && Last(stack).depth == |Open(Init(stack))|
     && Inside(h, root, Open(Init(stack)), Last(stack).value)
     && (Last(stack).leaving ==> Last(stack).value.Ref?))
  }

  ghost predicate OnPath(active: set<int>, stack: seq<Entry>) {
    && Distinct(Open(stack))
    && forall r :: r in active <==> r in Open(stack)
  }

  lemma {:induction false} NestEntries(h: Heap, root: Value, stack: seq<Entry>, vs: seq<Value>)
    requires Nested(h, root, stack)
    requires forall v :: v in vs ==> Inside(h, root, Open(stack), v)
    ensures Nested(h, root, stack + Entries(vs, |Open(stack)|))
    ensures Open(stack + Entries(vs, |Open(stack)|)) == Open(stack)
  {
    var all := stack + Entries(vs, |Open(stack)|);
    if vs == [] {
      assert all == stack;
    } else {
      NestEntries(h, root, stack, Init(vs));
      assert Init(all) == stack + Entries(Init(vs), |Open(stack)|);
      assert Last(all) == Entry(Last(vs), |Open(stack)|, false);
      assert Last(vs) in vs;
    }
  }

  lemma MarkNested(h: Heap, root: Value, stack: seq<Entry>, v: Value)
    requires v.Ref? && v.ref in h
    requires Nested(h, root, stack) && Inside(h, root, Open(stack), v)
    ensures var marked := stack + [Entry(v, |Open(stack)|, true)];
            Nested(h, root, marked) && Open(marked) == Open(stack) + [v.ref]
  {
    var marked := stack + [Entry(v, |Open(stack)|, true)];
    assert Init(marked) == stack && Last(marked) == Entry(v, |Open(stack)|, true);
  }

  lemma EnterNested(h: Heap, root: Value, stack: seq<Entry>, v: Value)
    requires v.Ref? && v.ref in h
    requires Nested(h, root, stack) && Inside(h, root, Open(stack), v)
    ensures var entered := Entered(h, stack, v, |Open(stack)|);
            Nested(h, root, entered) && Open(entered) == Open(stack) + [v.ref]
  {
    hide Nested, Open;
    MarkNested(h, root, stack, v);
    assert Children(h, v) == Values(h[v.ref]);
    NestEntries(h, root, stack + [Entry(v, |Open(stack)|, true)], Values(h[v.ref]));
  }

  lemma EnterContainer(h: Heap, root: Value, stack: seq<Entry>, v: Value, active: set<int>)
    requires v.Ref? && v.ref in h && v.ref !in active
    requires Nested(h, root, stack) && Inside(h, root, Open(stack), v) && OnPath(active, stack)
    ensures var entered := Entered(h, stack, v, |Open(stack)|);
            Nested(h, root, entered) && OnPath(active + {v.ref}, entered)
  {
    hide Nested, Inside, Entered;
    EnterNested(h, root, stack, v);
    DistinctConcat(Open(stack), [v.ref]);
    hide Open;
  }

  lemma LeaveContainer(h: Heap, root: Value, stack: seq<Entry>, active: set<int>)
    requires stack != [] && Last(stack).leaving
    requires Nested(h, root, stack) && OnPath(active, stack)
    ensures Last(stack).value.Ref? && Last(stack).value.ref in active
    ensures OnPath(active - {Last(stack).value.ref}, Init(stack))
  {
    var r := Last(stack).value.ref;
    DistinctConcat(Open(Init(stack)), [r]);
    assert r in Open(stack);
  }

  lemma LeaveScalar(h: Heap, root: Value, stack: seq<Entry>, active: set<int>)
    requires stack != [] && !Last(stack).leaving
    requires Nested(h, root, stack) && OnPath(active, stack)
    ensures OnPath(active, Init(stack)) && Open(Init(stack)) == Open(stack)
  {
  }

  /** The key scan of a dictionary: characters so far, stopping at a key that is no string. */
  method ScanKeys(entries: seq<(Key, Value)>, start: nat) returns (characters: nat, ok: bool)
    ensures ok <==> forall e :: e in entries ==> e.0.Name?
    ensures ok ==> characters == start + KeyChars(entries)
  {
    characters, ok := start, true;
    for i := 0 to |entries|
      invariant forall j :: 0 <= j < i ==> entries[j].0.Name?
      invariant characters == start + KeyChars(entries[..i])
    {
      assert Init(entries[..i + 1]) == entries[..i];
      if entries[i].0.OtherKey? {
        assert entries[i] in entries;
        ok := false;
        return;
      }
      characters := characters + entries[i].0.chars;
    }
    assert entries[..|entries|] == entries;
  }

  /** Scanning a container about to be entered; a list has no keys to scan. */
  method ScanContainer(h: Heap, r: int, start: nat) returns (characters: nat, ok: bool)
    requires r in h
    ensures ok <==> Plain(h, Ref(r))
    ensures ok ==> characters == start + OwnChars(h, Ref(r))
  {
    characters, ok := start, true;
    if h[r].Dict? {
      characters, ok := ScanKeys(h[r].entries, start);
    }
  }

  ghost predicate StackResolved(h: Heap, stack: seq<Entry>) {
    forall e :: e in stack ==> Resolved(h, e.value)
  }

  lemma ResolvedEntries(h: Heap, stack: seq<Entry>, v: Value, depth: nat)
    requires Closed(h) && StackResolved(h, stack) && v.Ref? && v.ref in h
    ensures StackResolved(h, Entered(h, stack, v, depth))
  {
    forall c | c in Values(h[v.ref]) ensures Resolved(h, c) {
      ChildResolved(h, v, c);
    }
  }

  /** The stack and the active set stand for the rest of a walk whose outcome is `whole`. */
  ghost predicate Running(h: Heap, root: Value, whole: Outcome, stack: seq<Entry>, active: set<int>,
                          t: Tally, maxBytes: nat) {
    && Closed(h)
    && Resume(h, stack, active, t, maxBytes) == whole
    && Nested(h, root, stack) && OnPath(active, stack)
    && StackResolved(h, stack)
  }

  lemma Start(h: Heap, root: Value, maxBytes: nat)
    requires Closed(h) && Resolved(h, root)
    ensures Running(h, root, WalkValue(h, root, 0, {}, 0, Tally(0, 0), maxBytes),
                    [Entry(root, 0, false)], {}, Tally(0, 0), maxBytes)
  {
    assert Init([Entry(root, 0, false)]) == [];
    assert Nested(h, root, []) && Open([]) == [];
    assert Resume(h, [], {}, Tally(0, 0), maxBytes) == Ok(Tally(0, 0));
  }

  lemma StepLeave(h: Heap, root: Value, whole: Outcome, stack: seq<Entry>, active: set<int>, t: Tally, maxBytes: nat)
    requires Running(h, root, whole, stack, active, t, maxBytes)
    requires stack != [] && Last(stack).leaving
    ensures Last(stack).value.Ref? && Last(stack).value.ref in active
    ensures Running(h, root, whole, Init(stack), active - {Last(stack).value.ref}, t, maxBytes)
  {
    LeaveContainer(h, root, stack, active);
  }

  /** The outcome of visiting the top entry: a fault is the walk's, a scalar is simply taken off. */
  lemma StepVisit(h: Heap, root: Value, whole: Outcome, stack: seq<Entry>, active: set<int>, t: Tally, maxBytes: nat)
    returns (o: Outcome)
    requires Running(h, root, whole, stack, active, t, maxBytes)
    requires stack != [] && !Last(stack).leaving
    ensures o == WalkValue(h, Last(stack).value, Last(stack).depth, active, |stack| - 1, t, maxBytes)
    ensures Resolved(h, Last(stack).value)
    ensures o.Err? ==> whole == o
    ensures o.Ok? ==> Running(h, root, whole, Init(stack), active, o.value, maxBytes)
  {
    o := WalkValue(h, Last(stack).value, Last(stack).depth, active, |stack| - 1, t, maxBytes);
    LeaveScalar(h, root, stack, active);
    assert Last(stack) in stack;
  }

  /** Entering the container on top: its leave marker and its elements take its place. */
  lemma StepEnter(h: Heap, root: Value, whole: Outcome, rest: seq<Entry>, v: Value, depth: nat,
                  active: set<int>, t: Tally, u: Tally, maxBytes: nat)
    requires Running(h, root, whole, rest + [Entry(v, depth, false)], active, t, maxBytes)
    requires v.Ref? && v.ref in h && v.ref !in active
    requires WalkValue(h, v, depth, active, |rest|, t, maxBytes)
             == WalkAll(h, Values(h[v.ref]), depth + 1, active + {v.ref}, |rest| + 1, u, maxBytes)
    ensures Running(h, root, whole, Entered(h, rest, v, depth), active + {v.ref}, u, maxBytes)
  {
    var stack := rest + [Entry(v, depth, false)];
    assert Init(stack) == rest && Last(stack) == Entry(v, depth, false);
    assert StackResolved(h, rest) by {
      assert forall e :: e in rest ==> e in stack;
    }
    hide WalkValue, WalkAll, Nested, OnPath, Resume, StackResolved, Open, Inside, Closed, Entered;
    LeaveScalar(h, root, stack, active);
    NestedTop(h, root, stack);
    EnterContainer(h, root, rest, v, active);
    ResolvedEntries(h, rest, v, depth);
    ResumeTop(h, stack, active, t, maxBytes);
    ResumeContainer(h, rest, v, depth, active, u, maxBytes);
  }

  /** The state of the explicit-stack walk between two entries. */
  datatype Machine = Machine(stack: seq<Entry>, active: set<int>, t: Tally)

  /** One turn of the walk: the top entry is left, or checked and replaced by its elements. */
  function Advance(h: Heap, m: Machine, maxBytes: nat): Result<Machine, Fault>
    requires m.stack != []
  {
    var top, rest := Last(m.stack), Init(m.stack);
    if top.leaving then Ok(Machine(rest, if top.value.Ref? then m.active - {top.value.ref} else m.active, m.t))
    else
      match Door(h, top.value, top.depth, m.active, |rest|, m.t, maxBytes)
      case Err(f) => Err(f)
      case Ok(u) =>
        Ok(if top.value.Ref? then Machine(Entered(h, rest, top.value, top.depth), m.active + {top.value.ref}, u)
           else Machine(rest, m.active, u))
  }

  /** The state after `n` turns, if the walk has not ended before. */
  ghost function After(h: Heap, root: Value, maxBytes: nat, n: nat): Option<Machine> {
    if n == 0 then Some(Machine([Entry(root, 0, false)], {}, Tally(0, 0)))
    else
      var before := After(h, root, maxBytes, n - 1);
      if before.None? || before.value.stack == [] then None
      else
        var next := Advance(h, before.value, maxBytes);
        if next.Ok? then Some(next.value) else None
  }

  /** What holds between any two turns. */
  ghost predicate Orderly(h: Heap, root: Value, m: Machine, maxBytes: nat) {
    && Running(h, root, WalkValue(h, root, 0, {}, 0, Tally(0, 0), maxBytes), m.stack, m.active, m.t, maxBytes)
    && m.t.items <= MAX_ITEMS && |m.stack| <= MAX_ITEMS
  }

  lemma DoorCounts(h: Heap, v: Value, depth: nat, active: set<int>, below: nat, t: Tally, maxBytes: nat)
    requires Door(h, v, depth, active, below, t, maxBytes).Ok?
    ensures Door(h, v, depth, active, below, t, maxBytes).value.items == t.items + 1 <= MAX_ITEMS
    ensures v.Ref? ==> v.ref in h && v.ref !in active && t.items + 1 + |Values(h[v.ref])| + below <= MAX_ITEMS
  {
  }

  /** A turn keeps the walk orderly and makes progress, or finds the fault of the whole walk. */
  lemma AdvanceKeeps(h: Heap, root: Value, m: Machine, maxBytes: nat)
    requires Orderly(h, root, m, maxBytes) && m.stack != []
    ensures var next := Advance(h, m, maxBytes);
            if next.Err? then WalkValue(h, root, 0, {}, 0, Tally(0, 0), maxBytes) == Err(next.error)
            else
              && Orderly(h, root, next.value, maxBytes)
              && (next.value.t.items > m.t.items || (next.value.t.items == m.t.items && |next.value.stack| < |m.stack|))
  {
    hide Running, WalkValue, WalkAll, Door, Closed;
    var whole := WalkValue(h, root, 0, {}, 0, Tally(0, 0), maxBytes);
    var top, rest := Last(m.stack), Init(m.stack);
    assert m.stack == rest + [top];
    if top.leaving {
      StepLeave(h, root, whole, m.stack, m.active, m.t, maxBytes);
    } else {
      var o := StepVisit(h, root, whole, m.stack, m.active, m.t, maxBytes);
      var door := Door(h, top.value, top.depth, m.active, |rest|, m.t, maxBytes);
      VisitIsDoor(h, top.value, top.depth, m.active, |rest|, m.t, maxBytes);
      if door.Ok? {
        DoorCounts(h, top.value, top.depth, m.active, |rest|, m.t, maxBytes);
        if top.value.Ref? {
          StepEnter(h, root, whole, rest, top.value, top.depth, m.active, m.t, door.value, maxBytes);
        }
      }
    }
  }

  lemma VisitIsDoor(h: Heap, v: Value, depth: nat, active: set<int>, below: nat, t: Tally, maxBytes: nat)
    ensures var door, o := Door(h, v, depth, active, below, t, maxBytes),
                            WalkValue(h, v, depth, active, below, t, maxBytes);
            && (door.Err? ==> o == door)
            && (door.Ok? && !v.Ref? ==> o == door)
            && (door.Ok? && v.Ref? ==>
                  v.ref in h &&
                  o == WalkAll(h, Values(h[v.ref]), depth + 1, active + {v.ref}, below + 1, door.value, maxBytes))
  {
  }

  /**
   * Between any two turns, on any object graph: the stack is within 65,536 entries; every entry
   * lies as deep as there are containers entered below it; and the active set is exactly
   * those containers, a chain of elements from the root down, each of them once.
   */
  lemma {:induction false} EveryTurn(h: Heap, root: Value, maxBytes: nat, n: nat)
    requires Closed(h) && Resolved(h, root) && After(h, root, maxBytes, n).Some?
    ensures var m := After(h, root, maxBytes, n).value;
            && Orderly(h, root, m, maxBytes)
            && |m.stack| <= MAX_ITEMS && m.t.items <= MAX_ITEMS
            && Nested(h, root, m.stack)
            && Distinct(Open(m.stack)) && (forall r :: r in m.active <==> r in Open(m.stack))
  {
    hide Nested, Open, WalkValue;
    if n == 0 {
      Start(h, root, maxBytes);
    } else {
      hide Advance;
      EveryTurn(h, root, maxBytes, n - 1);
      AdvanceKeeps(h, root, After(h, root, maxBytes, n - 1).value, maxBytes);
    }
  }

  /** The walk ends after `n` turns with `r`. */
  ghost predicate EndsAfter(h: Heap, root: Value, maxBytes: nat, n: nat, r: Outcome) {
    && After(h, root, maxBytes, n).Some?
    && var m := After(h, root, maxBytes, n).value;
       if m.stack == [] then r == Ok(m.t)
       else Advance(h, m, maxBytes).Err? && r == Err(Advance(h, m, maxBytes).error)
  }

  lemma Begins(h: Heap, root: Value, maxBytes: nat)
    requires Closed(h) && Resolved(h, root)
    ensures var m := Machine([Entry(root, 0, false)], {}, Tally(0, 0));
            After(h, root, maxBytes, 0) == Some(m) && Orderly(h, root, m, maxBytes)
  {
    hide WalkValue;
    Start(h, root, maxBytes);
  }

  /** All that one turn establishes for the loop. */
  lemma TurnTaken(h: Heap, root: Value, m: Machine, maxBytes: nat, n: nat)
    requires After(h, root, maxBytes, n) == Some(m) && m.stack != [] && Orderly(h, root, m, maxBytes)
    ensures m.t.items <= MAX_ITEMS
    ensures Resolved(h, Last(m.stack).value) && (Last(m.stack).leaving ==> Last(m.stack).value.Ref?)
    ensures var next := Advance(h, m, maxBytes);
            if next.Err? then
              && WalkValue(h, root, 0, {}, 0, Tally(0, 0), maxBytes) == Err(next.error)
              && EndsAfter(h, root, maxBytes, n, Err(next.error))
            else
              After(h, root, maxBytes, n + 1) == Some(next.value) && Orderly(h, root, next.value, maxBytes)
  {
    hide WalkValue, Advance;
    AdvanceKeeps(h, root, m, maxBytes);
    assert Last(m.stack) in m.stack;
  }

  lemma Finished(h: Heap, root: Value, m: Machine, maxBytes: nat, n: nat)
    requires After(h, root, maxBytes, n) == Some(m) && m.stack == [] && Orderly(h, root, m, maxBytes)
    ensures WalkValue(h, root, 0, {}, 0, Tally(0, 0), maxBytes) == Ok(m.t)
    ensures EndsAfter(h, root, maxBytes, n, Ok(m.t))
  {
    hide WalkValue;
    Finish(h, root, WalkValue(h, root, 0, {}, 0, Tally(0, 0), maxBytes), m.active, m.t, maxBytes);
  }

  /** The explicit-stack walk: it ends on every object graph, cyclic or not, with the outcome of the recursion. */
  method Walk(h: Heap, value: Value, maxBytes: nat) returns (r: Outcome, ghost turns: nat)
    requires Closed(h) && Resolved(h, value)
    ensures r == WalkValue(h, value, 0, {}, 0, Tally(0, 0), maxBytes)
    ensures EndsAfter(h, value, maxBytes, turns, r)
  {
    hide Running, Closed, Plain, OwnChars, WalkAll, WalkValue, After, EndsAfter, Orderly;
    var stack := [Entry(value, 0, false)];
    var active: set<int> := {};
    var items: nat, characters: nat := 0, 0;
    turns := 0;
    Begins(h, value, maxBytes);
    while stack != []
      invariant After(h, value, maxBytes, turns) == Some(Machine(stack, active, Tally(items, characters)))
      invariant Orderly(h, value, Machine(stack, active, Tally(items, characters)), maxBytes)
      decreases MAX_ITEMS - items, |stack|
    {
      ghost var m := Machine(stack, active, Tally(items, characters));
      TurnTaken(h, value, m, maxBytes, turns);
      var entry := Last(stack);
      stack := Init(stack);
      if entry.leaving {
        active := active - {entry.value.ref};
        turns := turns + 1;
        continue;
      }
      items := items + 1;
      if items > MAX_ITEMS {
        return Err(TooManyItems), turns;
      }
      if entry.depth > MAX_DEPTH {
        return Err(TooDeep), turns;
      }
      match entry.value {
        case Ref(r) =>
          if r in active {
            return Err(Cycle), turns;
          }
          if items + |Values(h[r])| + |stack| > MAX_ITEMS {
            return Err(Crowded), turns;
          }
          var scanned, ok := ScanContainer(h, r, characters);
          if !ok {
            return Err(OddKey), turns;
          }
          active := active + {r};
          stack := stack + [Entry(entry.value, entry.depth, true)] + Entries(Values(h[r]), entry.depth + 1);
          characters := scanned;
        case Str(chars) =>
          characters := characters + chars;
        case Int(bits) =>
          if bits > 64 {
            return Err(WideInteger), turns;
          }
        case Float(finite) =>
          if !finite {
            return Err(NotFinite), turns;
          }
        case Foreign =>
          return Err(ForeignObject), turns;
        case Null =>
        case Bool =>
      }
      if characters > maxBytes {
        return Err(TooManyCharacters), turns;
      }
      turns := turns + 1;
    }
    Finished(h, value, Machine([], active, Tally(items, characters)), maxBytes, turns);
    r := Ok(Tally(items, characters));
  }

  lemma Finish(h: Heap, root: Value, whole: Outcome, active: set<int>, t: Tally, maxBytes: nat)
    requires Running(h, root, whole, [], active, t, maxBytes)
    ensures whole == Ok(t)
  {
  }

  lemma ResumeTop(h: Heap, stack: seq<Entry>, active: set<int>, t: Tally, maxBytes: nat)
    requires stack != [] && !Last(stack).leaving
    ensures Resume(h, stack, active, t, maxBytes)
            == match WalkValue(h, Last(stack).value, Last(stack).depth, active, |stack| - 1, t, maxBytes)
               case Err(f) => Err(f)
               case Ok(u) => Resume(h, Init(stack), active, u, maxBytes)
  {
  }

  lemma NestedTop(h: Heap, root: Value, stack: seq<Entry>)
    requires stack != [] && Nested(h, root, stack)
    ensures Nested(h, root, Init(stack))
    ensures Last(stack).depth == |Open(Init(stack))|
    ensures Inside(h, root, Open(Init(stack)), Last(stack).value)
  {
  }
}
