/** The soak's hash-chained attempt log: validation, the shape of a run, what the cursor pins down. */
module SoakHistory {
  import opened Common

  datatype Phase = On | Off | Legacy

  datatype Outcome = Pass | Fail

  /** An attempt without its own digest: what the digest is computed from. */
  datatype Unsigned = Unsigned(
    sequence: int, cycle: int, phase: Phase, outcome: Outcome, category: Option<string>, previousDigest: string)

  datatype Attempt = Attempt(body: Unsigned, digest: string)

  /** The canonical hash, as an arbitrary function. */
  type Hash = Unsigned -> string

  const MAX_CYCLES := 10080
  const HISTORY_LIMIT := 2 * MAX_CYCLES + 2

  predicate SafeCategory(category: string) {
    1 <= |category| <= 80 &&
    forall i :: 0 <= i < |category| ==>
      'a' <= category[i] <= 'z' || '0' <= category[i] <= '9' || category[i] == '_'
  }

  predicate SafeOption(category: Option<string>) {
    category.Some? ==> SafeCategory(category.value)
  }

  function Cursor(history: seq<Attempt>): string {
    if history == [] then "" else Last(history).digest
  }

  /** `a` is a proper next entry after `before`. */
  ghost predicate Links(hash: Hash, before: seq<Attempt>, a: Attempt) {
    && a.body.sequence == |before|
    && a.body.cycle >= 0
    && SafeOption(a.body.category)
    && a.body.previousDigest == Cursor(before)
    && a.digest == hash(a.body)
  }

  ghost predicate Chained(hash: Hash, history: seq<Attempt>) {
    history == [] || (Chained(hash, Init(history)) && Links(hash, Init(history), Last(history)))
  }

  ghost predicate ValidHistory(hash: Hash, history: seq<Attempt>, cursor: string) {
    |history| <= HISTORY_LIMIT && Chained(hash, history) && cursor == Cursor(history)
  }

  lemma {:induction false} ChainedPrefix(hash: Hash, history: seq<Attempt>, k: nat)
    requires Chained(hash, history) && k <= |history|
    ensures Chained(hash, history[..k])
  {
    if k == |history| {
      assert history[..k] == history;
    } else {
      assert Init(history)[..k] == history[..k];
      ChainedPrefix(hash, Init(history), k);
    }
  }

  /** Accepts exactly the valid histories. */
  method ValidateAttemptHistory(hash: Hash, history: seq<Attempt>, attemptCursor: string) returns (ok: bool)
    ensures ok <==> ValidHistory(hash, history, attemptCursor)
  {
    if |history| > HISTORY_LIMIT {
      return false;
    }
    var cursor := "";
    for k := 0 to |history|
      invariant Chained(hash, history[..k]) && cursor == Cursor(history[..k])
    {
      var attempt := history[k];
      assert Init(history[..k + 1]) == history[..k] && Last(history[..k + 1]) == attempt;
      if attempt.body.sequence != k || attempt.body.cycle < 0 || attempt.body.previousDigest != cursor
         || !SafeOption(attempt.body.category) || attempt.digest != hash(attempt.body) {
        if Chained(hash, history) {
          ChainedPrefix(hash, history, k + 1);
        }
        return false;
      }
      cursor := attempt.digest;
    }
    assert history[..|history|] == history;
    return attemptCursor == cursor;
  }

  /** The entry that recording an attempt adds. */
  function NextAttempt(hash: Hash, history: seq<Attempt>, cycle: int, phase: Phase,
                       outcome: Outcome, category: Option<string>): Attempt {
    var body := Unsigned(|history|, cycle, phase, outcome, category, Cursor(history));
    Attempt(body, hash(body))
  }

  lemma AppendKeepsChain(hash: Hash, history: seq<Attempt>, cycle: int, phase: Phase,
                         outcome: Outcome, category: Option<string>)
    requires Chained(hash, history) && cycle >= 0 && SafeOption(category)
    ensures Chained(hash, history + [NextAttempt(hash, history, cycle, phase, outcome, category)])
  {
    var grown := history + [NextAttempt(hash, history, cycle, phase, outcome, category)];
    assert Init(grown) == history;
  }

  // ----------------------------------------------------- the cursor

  /** No collisions, and no digest is the empty start value. */
  ghost predicate Ideal(hash: Hash) {
    && (forall a, b :: hash(a) == hash(b) ==> a == b)
    && forall a :: hash(a) != ""
  }

  /** Two valid histories with one cursor are the same history. */
  lemma {:induction false} CursorDeterminesHistory(hash: Hash, a: seq<Attempt>, b: seq<Attempt>)
    requires Ideal(hash) && Chained(hash, a) && Chained(hash, b) && Cursor(a) == Cursor(b)
    ensures a == b
  {
    if a == [] || b == [] {
    } else {
      assert hash(Last(a).body) == hash(Last(b).body);
      CursorDeterminesHistory(hash, Init(a), Init(b));
      assert a == Init(a) + [Last(a)] && b == Init(b) + [Last(b)];
    }
  }

  // ----------------------------------------------------- the shape of a run

  predicate Is(a: Attempt, phase: Phase, outcome: Outcome) {
    a.body.phase == phase && a.body.outcome == outcome
  }

  /** (ON-PASS OFF-PASS | ON-PASS OFF-FAIL | ON-FAIL)* [ON-PASS] */
  ghost predicate Paired(history: seq<Attempt>)
    decreases |history|
  {
    || history == []
    || (Is(history[0], On, Fail) && Paired(history[1..]))
    || (Is(history[0], On, Pass) && |history| == 1)
    || (Is(history[0], On, Pass) && |history| >= 2 && history[1].body.phase == Off && Paired(history[2..]))
  }

  /** legacy* followed by paired attempts. */
  ghost predicate Shape(history: seq<Attempt>)
    decreases |history|
  {
    Paired(history) || (history != [] && Is(history[0], Legacy, Pass) && Shape(history[1..]))
  }

  /** An ON-PASS that nothing has followed yet. */
  predicate Dangling(history: seq<Attempt>) {
    history != [] && Is(Last(history), On, Pass)
  }

  /** A legal continuation: OFF exactly after a dangling ON-PASS, ON otherwise. */
  predicate Continues(history: seq<Attempt>, a: Attempt) {
    a.body.phase == if Dangling(history) then Off else On
  }

  lemma {:induction false} PairedGrows(history: seq<Attempt>, a: Attempt)
    requires Paired(history) && Continues(history, a)
    ensures Paired(history + [a])
    decreases |history|
  {
    var grown := history + [a];
    if history == [] {
      assert grown[1..] == [];
    } else if Is(history[0], On, Fail) {
      if |history| > 1 {
        assert Last(history[1..]) == Last(history);
      }
      PairedGrows(history[1..], a);
      assert grown[1..] == history[1..] + [a];
    } else if |history| == 1 {
      assert grown[2..] == [];
    } else {
      if |history| > 2 {
        assert Last(history[2..]) == Last(history);
      } else {
        assert history[2..] == [];
      }
      PairedGrows(history[2..], a);
      assert grown[2..] == history[2..] + [a];
    }
  }

  lemma {:induction false} ShapeGrows(history: seq<Attempt>, a: Attempt)
    requires Shape(history) && Continues(history, a)
    ensures Shape(history + [a])
    decreases |history|
  {
    if Paired(history) {
      PairedGrows(history, a);
    } else {
      if |history| > 1 {
        assert Last(history[1..]) == Last(history);
      }
      ShapeGrows(history[1..], a);
      assert (history + [a])[1..] == history[1..] + [a];
    }
  }

  /** In a run's history every OFF attempt comes right after an ON-PASS. */
  lemma {:induction false} OffFollowsOnPass(history: seq<Attempt>, i: nat)
    requires Shape(history) && i < |history| && history[i].body.phase == Off
    ensures i > 0 && Is(history[i - 1], On, Pass)
    decreases |history|
  {
    if Paired(history) {
      if Is(history[0], On, Fail) {
        OffFollowsOnPass(history[1..], i - 1);
        assert history[1..][i - 2] == history[i - 1];
      } else if |history| >= 2 && i > 1 {
        OffFollowsOnPass(history[2..], i - 2);
        assert history[2..][i - 3] == history[i - 1];
      }
    } else {
      OffFollowsOnPass(history[1..], i - 1);
      assert history[1..][i - 2] == history[i - 1];
    }
  }

  lemma {:induction false} LegacyShape(history: seq<Attempt>)
    requires forall i :: 0 <= i < |history| ==> Is(history[i], Legacy, Pass)
    ensures Shape(history)
    decreases |history|
  {
    if history != [] {
      LegacyShape(history[1..]);
    }
  }

  // ----------------------------------------------------- cycles

  /** Cycle numbers never fall, and stay at or below `completed`. */
  ghost predicate CyclesOrdered(history: seq<Attempt>, completed: int) {
    && (forall i, j :: 0 <= i < j < |history| ==> history[i].body.cycle <= history[j].body.cycle)
    && forall i :: 0 <= i < |history| ==> 0 <= history[i].body.cycle <= completed
  }

  /** Entry `i` alone, or with its successor, is a passed cycle numbered `cycle`. */
  ghost predicate PassedAt(history: seq<Attempt>, cycle: int, i: nat) {
    && i < |history| && history[i].body.cycle == cycle
    && (|| Is(history[i], Legacy, Pass)
        || (Is(history[i], On, Pass) && i + 1 < |history| && Is(history[i + 1], Off, Pass)
            && history[i + 1].body.cycle == cycle))
  }

  ghost predicate Passed(history: seq<Attempt>, cycle: int) {
    exists i: nat :: PassedAt(history, cycle, i)
  }

  /** Every completed cycle has a passed pair, or a legacy pass, bearing its number. */
  ghost predicate Covered(history: seq<Attempt>, completed: int) {
    forall c :: 0 <= c < completed ==> Passed(history, c)
  }

  lemma CoveredGrows(history: seq<Attempt>, a: Attempt, completed: int)
    requires Covered(history, completed)
    ensures Covered(history + [a], completed)
  {
    forall c | 0 <= c < completed ensures Passed(history + [a], c) {
      assert Passed(history, c);
      var i: nat :| PassedAt(history, c, i);
      assert PassedAt(history + [a], c, i);
    }
  }

  lemma CycleCovered(history: seq<Attempt>, completed: int)
    requires Covered(history, completed)
    requires |history| >= 2 && PassedAt(history, completed, |history| - 2)
    ensures Covered(history, completed + 1)
  {
    assert Passed(history, completed);
  }

  /** One legacy pass per cycle is a complete, properly shaped history. */
  lemma OneLegacyEach(history: seq<Attempt>)
    requires forall i :: 0 <= i < |history| ==> Is(history[i], Legacy, Pass) && history[i].body.cycle == i
    ensures Shape(history) && !Dangling(history)
    ensures CyclesOrdered(history, |history|) && Covered(history, |history|)
  {
    LegacyShape(history);
    hide Shape;
    forall c | 0 <= c < |history| ensures Passed(history, c) {
      assert PassedAt(history, c, c);
    }
  }
}
