/**
 * The resumable soak: ON/OFF probe pairs checkpointed one phase at a time, a crash
 * possible around every write, and a gate recorded at the end.
 */
module Soak {
  import opened Common
  import opened SoakHistory
  import GateStore

  datatype Status = Running | Ready | Passed | Failed

  /** What binds a soak to its inputs; a resume must bring the same. */
  datatype Inputs = Inputs(
    inputHash: string, targetSeconds: int, candidateDigest: string, wheelBinding: string, pageTimeout: int)

  datatype Check = CheckPass | CheckSkipped

  datatype OnPayload = OnPayload(sources: nat, indexed: nat, quarantined: nat, rss: nat, subtree: Check, crud: Check)

  datatype OffPayload = OffPayload(rss: nat)

  datatype Trend = Trend(
    combined: bool, sources: nat, indexed: nat, quarantined: nat, rss: nat,
    elapsedMs: real, subtree: Check, crud: Check)

  /** The state document. */
  datatype State = State(
    inputs: Inputs, status: Status, completedCycles: int, trends: seq<Trend>, nextPhase: Phase,
    history: seq<Attempt>, cursor: string, elapsed: real, lastFailure: Option<string>)

  /** The state file: none yet, one from the previous schema, or a current one. */
  datatype StateFile = Missing | V1(legacy: State) | V2(state: State)

  /** How a collection ends: a gate verdict, an error category, or a crash. */
  datatype End = Verdict(passed: bool) | Raised(category: string) | Crashed

  // ------------------------------------------------------- pure state changes

  function Checkpointed(hash: Hash, s: State, phase: Phase, outcome: Outcome, category: Option<string>,
                        next: Phase): State {
    var a := NextAttempt(hash, s.history, s.completedCycles, phase, outcome, category);
    s.(history := s.history + [a], cursor := a.digest, nextPhase := next)
  }

  function CycleDone(s: State, trend: Trend, seconds: real): State {
    s.(elapsed := s.elapsed + (if seconds > 0.0 then seconds else 0.0),
       trends := s.trends + [trend], completedCycles := s.completedCycles + 1)
  }

  function CombinedTrend(on: OnPayload, off: OffPayload, elapsedMs: real): Trend {
    Trend(true, on.sources, on.indexed, on.quarantined, if on.rss > off.rss then on.rss else off.rss,
          elapsedMs, on.subtree, on.crud)
  }

  // ------------------------------------------------------- the invariant

  /** What holds of every state document this code writes. */
  ghost predicate Sound(hash: Hash, s: State) {
    && ValidHistory(hash, s.history, s.cursor)
    && Shape(s.history)
    && s.nextPhase == (if Dangling(s.history) then Off else On)
    && s.completedCycles == |s.trends|
    && CyclesOrdered(s.history, s.completedCycles)
    && Covered(s.history, s.completedCycles)
    && (s.status == Passed ==> s.elapsed >= s.inputs.targetSeconds as real)
  }

  /** `later` continues `s`: same inputs, nothing recorded is lost or rewritten, no time is given back. */
  ghost predicate Continued(s: State, later: State) {
    && later.inputs == s.inputs
    && s.history <= later.history
    && s.trends <= later.trends
    && s.elapsed <= later.elapsed
  }

  /** The first attempt after an interrupted ON-PASS is the failed OFF that closes it. */
  ghost predicate ClosesInterrupted(s: State, later: State) {
    Dangling(s.history) && |later.history| > |s.history| ==>
      later.history[|s.history|].body.phase == Off
      && later.history[|s.history|].body.outcome == Fail
      && later.history[|s.history|].body.category == Some("probe_interrupted")
  }

  /** A checkpoint that fits the phase: OFF after a dangling ON-PASS, else ON, and only ON-PASS leaves OFF due. */
  predicate Fits(s: State, phase: Phase, outcome: Outcome, category: Option<string>, next: Phase) {
    && phase == s.nextPhase
    && next == (if phase == On && outcome == Pass then Off else On)
    && SafeOption(category)
    && |s.history| < HISTORY_LIMIT
  }

  lemma CheckpointSound(hash: Hash, s: State, phase: Phase, outcome: Outcome, category: Option<string>, next: Phase)
    requires Sound(hash, s) && Fits(s, phase, outcome, category, next) && s.status != Passed
    ensures Sound(hash, Checkpointed(hash, s, phase, outcome, category, next))
    ensures Continued(s, Checkpointed(hash, s, phase, outcome, category, next))
    ensures var later := Checkpointed(hash, s, phase, outcome, category, next);
            && |later.history| == |s.history| + 1 && later.nextPhase == next
            && (later.status, later.trends, later.elapsed) == (s.status, s.trends, s.elapsed)
            && var a := Last(later.history).body;
               && a.cycle == |s.trends| && a.phase == phase && a.outcome == outcome && a.category == category
  {
    var a := NextAttempt(hash, s.history, s.completedCycles, phase, outcome, category);
    AppendKeepsChain(hash, s.history, s.completedCycles, phase, outcome, category);
    ShapeGrows(s.history, a);
    CoveredGrows(s.history, a, s.completedCycles);
  }

  /** The last two attempts are the passed pair of the current cycle. */
  ghost predicate PairDone(s: State) {
    |s.history| >= 2 && PassedAt(s.history, s.completedCycles, |s.history| - 2)
  }

  lemma CycleSound(hash: Hash, s: State, trend: Trend, seconds: real)
    requires Sound(hash, s) && PairDone(s) && s.status != Passed
    ensures Sound(hash, CycleDone(s, trend, seconds))
    ensures Continued(s, CycleDone(s, trend, seconds))
  {
    CycleCovered(s.history, s.completedCycles);
  }

  /** A passed OFF right after the ON-PASS of the same cycle completes the pair. */
  lemma PairFormed(hash: Hash, s: State)
    requires Dangling(s.history) && Last(s.history).body.cycle == s.completedCycles
    ensures PairDone(Checkpointed(hash, s, Off, Pass, None, On))
  {
  }

  // ------------------------------------------------------- time

  /** The n-th reading of the monotonic clock. */
  type Clock = nat -> real

  /** What the readings at `ends` have gained on the readings just before them, setbacks not counted. */
  function Gained(clock: Clock, ends: seq<nat>): real {
    if ends == [] then 0.0
    else
      var e := Last(ends);
      var gain := if e == 0 then 0.0 else clock(e) - clock(e - 1);
      Gained(clock, Init(ends)) + if gain > 0.0 then gain else 0.0
  }

  /** Readings strictly between two others, in order. */
  ghost predicate Ends(ends: seq<nat>, low: nat, high: nat) {
    && (forall i :: 0 <= i < |ends| ==> low < ends[i] < high)
    && forall i, j :: 0 <= i < j < |ends| ==> ends[i] < ends[j]
  }

  /**
   * The state counts `elapsed` seconds and, for each trend after the first `trends`, what the clock gained
   * up to a reading of its own after number `low`.
   */
  ghost predicate Timed(clock: Clock, elapsed: real, trends: nat, later: State, low: nat, high: nat) {
    exists ends ::
      Ends(ends, low, high) && |later.trends| == trends + |ends| && later.elapsed == elapsed + Gained(clock, ends)
  }

  lemma {:induction false} GainedConcat(clock: Clock, a: seq<nat>, b: seq<nat>)
    ensures Gained(clock, a + b) == Gained(clock, a) + Gained(clock, b)
  {
    if b == [] {
      assert a + b == a;
    } else {
      GainedConcat(clock, a, Init(b));
      assert Init(a + b) == a + Init(b) && Last(a + b) == Last(b);
    }
  }

  lemma {:induction false} GainedNatural(clock: Clock, ends: seq<nat>)
    ensures Gained(clock, ends) >= 0.0
  {
    if ends != [] {
      GainedNatural(clock, Init(ends));
    }
  }

  lemma TimedSame(clock: Clock, s: State, low: nat, high: nat)
    ensures Timed(clock, s.elapsed, |s.trends|, s, low, high)
  {
    assert Ends([], low, high) && Gained(clock, []) == 0.0;
  }

  /** What counts for a state counts for any with the same time and trends. */
  lemma TimedLike(clock: Clock, elapsed: real, trends: nat, s: State, low: nat, high: nat)
    requires Timed(clock, elapsed, trends, s, low, high)
    ensures forall later: State :: later.elapsed == s.elapsed && later.trends == s.trends ==>
              Timed(clock, elapsed, trends, later, low, high)
  {
    var ends :| Ends(ends, low, high) && |s.trends| == trends + |ends| && s.elapsed == elapsed + Gained(clock, ends);
  }

  lemma TimedAnyway(clock: Clock, s: State, low: nat, high: nat)
    ensures forall later: State :: later.elapsed == s.elapsed && later.trends == s.trends ==>
              Timed(clock, s.elapsed, |s.trends|, later, low, high)
  {
    TimedSame(clock, s, low, high);
    TimedLike(clock, s.elapsed, |s.trends|, s, low, high);
  }

  lemma TimedWider(clock: Clock, elapsed: real, trends: nat, later: State, low: nat, high: nat, low': nat, high': nat)
    requires Timed(clock, elapsed, trends, later, low, high) && low' <= low && high <= high'
    ensures Timed(clock, elapsed, trends, later, low', high')
  {
    var ends :|
      Ends(ends, low, high) && |later.trends| == trends + |ends| && later.elapsed == elapsed + Gained(clock, ends);
    assert Ends(ends, low', high');
  }

  lemma TimedJoin(clock: Clock, elapsed: real, trends: nat, s: State, later: State,
                  low: nat, mid: nat, mid': nat, high: nat)
    requires Timed(clock, elapsed, trends, s, low, mid) && Timed(clock, s.elapsed, |s.trends|, later, mid', high)
    requires low <= mid' && mid <= mid' + 1 && mid <= high
    ensures Timed(clock, elapsed, trends, later, low, high)
  {
    var a :| Ends(a, low, mid) && |s.trends| == trends + |a| && s.elapsed == elapsed + Gained(clock, a);
    var b :| Ends(b, mid', high) && |later.trends| == |s.trends| + |b| && later.elapsed == s.elapsed + Gained(clock, b);
    GainedConcat(clock, a, b);
    assert Ends(a + b, low, high);
  }

  /** One cycle counts up to the reading at its end. */
  lemma TimedCycle(clock: Clock, s: State, trend: Trend, now: nat)
    requires now > 0
    ensures Timed(clock, s.elapsed, |s.trends|, CycleDone(s, trend, clock(now) - clock(now - 1)), now - 1, now + 1)
  {
    assert Ends([now], now - 1, now + 1);
    assert Init([now]) == [];
    assert Gained(clock, []) == 0.0;
  }

  /** Counting from nothing, a positive time takes a cycle. */
  lemma TimeTakesCycles(clock: Clock, later: State, low: nat, high: nat)
    requires Timed(clock, 0.0, 0, later, low, high) && later.elapsed > 0.0
    ensures |later.trends| > 0
  {
    var ends :| Ends(ends, low, high) && |later.trends| == 0 + |ends| && later.elapsed == 0.0 + Gained(clock, ends);
  }

  /** The trend of a cycle is what its two probes reported, the larger memory of the two. */
  ghost predicate Reports(t: Trend, on: OnPayload, off: OffPayload) {
    && t.combined && t.sources == on.sources && t.indexed == on.indexed && t.quarantined == on.quarantined
    && t.subtree == on.subtree && t.crud == on.crud
    && t.rss >= on.rss && t.rss >= off.rss && t.rss in {on.rss, off.rss}
  }

  /** A gate says what a state says: its verdict, its inputs, its wheel. */
  ghost predicate Speaks(record: GateStore.Record, s: State) {
    && (record.status == GateStore.Pass <==> s.status == Status.Passed)
    && record.inputHash == s.inputs.inputHash
    && record.details.provenance == Some(s.inputs.candidateDigest)
    && record.details.binding == Some(s.inputs.wheelBinding)
  }

  /** Every look since `before` found the working copy intact. */
  ghost predicate AllIntact(before: seq<bool>, after: seq<bool>) {
    before <= after && forall k :: |before| <= k < |after| ==> after[k]
  }

  // ------------------------------------------------------- migration

  predicate LegacyState(s: State) {
    s.status == Running && s.completedCycles == |s.trends|
  }

  function LegacyHistory(hash: Hash, n: nat): seq<Attempt> {
    if n == 0 then []
    else
      var before := LegacyHistory(hash, n - 1);
      before + [NextAttempt(hash, before, n - 1, Legacy, Pass, None)]
  }

  lemma {:induction false} LegacyChained(hash: Hash, n: nat)
    ensures |LegacyHistory(hash, n)| == n && Chained(hash, LegacyHistory(hash, n))
  {
    if n > 0 {
      LegacyChained(hash, n - 1);
      AppendKeepsChain(hash, LegacyHistory(hash, n - 1), n - 1, Legacy, Pass, None);
    }
  }

  lemma {:induction false} LegacyEntries(hash: Hash, n: nat, i: nat)
    requires i < n
    ensures |LegacyHistory(hash, n)| == n
    ensures Is(LegacyHistory(hash, n)[i], Legacy, Pass) && LegacyHistory(hash, n)[i].body.cycle == i
  {
    hide Chained;
    LegacyChained(hash, n);
    LegacyChained(hash, n - 1);
    if i < n - 1 {
      LegacyEntries(hash, n - 1, i);
    }
  }

  /** The current form of a legacy state: one legacy pass per trend. */
  function Migrated(hash: Hash, s: State): State {
    var h := LegacyHistory(hash, |s.trends|);
    s.(history := h, cursor := Cursor(h), nextPhase := On)
  }

  /** A migrated history is one that validation accepts. */
  lemma MigratedSound(hash: Hash, s: State)
    requires LegacyState(s) && |s.trends| <= HISTORY_LIMIT
    ensures Sound(hash, Migrated(hash, s))
  {
    var h := LegacyHistory(hash, |s.trends|);
    LegacyChained(hash, |s.trends|);
    forall i | 0 <= i < |h| ensures Is(h[i], Legacy, Pass) && h[i].body.cycle == i {
      LegacyEntries(hash, |s.trends|, i);
    }
    OneLegacyEach(h);
  }

  const RECOVERABLE := {"probe_timeout", "probe_launch_failed", "probe_flag_on_failed",
                        "probe_flag_off_failed", "probe_payload_invalid", "probe_invalid"}

  lemma RecoverableIsSafe(category: string)
    requires category in RECOVERABLE || category == "probe_interrupted"
    ensures SafeCategory(category)
  {
  }

  // ------------------------------------------------------- the collector

  class Collector {
    const hash: Hash
    const store: GateStore.Store
    var file: StateFile
    const clock: Clock
    var ticks: nat
    var probedOn: Option<OnPayload>
    var probedOff: Option<OffPayload>
    var looks: seq<bool>

    /** The state file holds nothing, a legacy document, or a sound one; the gate store is valid. */
    ghost predicate Valid()
      reads this, store
    {
      && store.Valid()
      && (file.V2? ==> Sound(hash, file.state))
    }

    constructor (hash: Hash, store: GateStore.Store, file: StateFile, clock: Clock)
      requires store.Valid() && !file.V2?
      ensures Valid() && this.hash == hash && this.store == store && this.file == file
      ensures this.clock == clock && ticks == 0 && looks == []
    {
      this.hash, this.store, this.file, this.clock := hash, store, file, clock;
      ticks, probedOn, probedOff, looks := 0, None, None, [];
    }

    method ReadClock() returns (now: real)
      modifies this`ticks
      ensures ticks == old(ticks) + 1 && now == clock(old(ticks))
    {
      now := clock(ticks);
      ticks := ticks + 1;
    }

    /** One atomic replacement of the state file; the process may die before or after it. */
    method WriteState(s: State) returns (crashed: bool)
      requires Valid() && Sound(hash, s)
      modifies this`file
      ensures Valid()
      ensures file == V2(s) || (crashed && file == old(file))
    {
      crashed := *;
      if crashed {
        return;
      }
      file := V2(s);
      crashed := *;
    }

    /** Appends an attempt, sets the next phase and persists both together. */
    method CheckpointPhase(s: State, phase: Phase, outcome: Outcome, category: Option<string>, next: Phase)
      returns (r: Result<State, End>)
      requires Valid() && Sound(hash, s) && s.status != Passed
      requires |s.history| < HISTORY_LIMIT ==> Fits(s, phase, outcome, category, next)
      modifies this`file
      ensures Valid()
      ensures |s.history| >= HISTORY_LIMIT ==> r == Err(Raised("soak_attempt_limit")) && file == old(file)
      ensures |s.history| < HISTORY_LIMIT ==>
                var t := Checkpointed(hash, s, phase, outcome, category, next);
                && Sound(hash, t) && Continued(s, t)
                && (r == Ok(t) || r == Err(Crashed))
                && (file == V2(t) || (r == Err(Crashed) && file == old(file)))
    {
      if |s.history| >= HISTORY_LIMIT {
        return Err(Raised("soak_attempt_limit"));
      }
      CheckpointSound(hash, s, phase, outcome, category, next);
      var t := Checkpointed(hash, s, phase, outcome, category, next);
      var crashed := WriteState(t);
      if crashed {
        return Err(Crashed);
      }
      return Ok(t);
    }

    /** Reads the state file, migrating a legacy document in memory. */
    method LoadState() returns (r: Result<Option<State>, End>)
      requires Valid()
      ensures r.Err? ==> r.error.Raised?
      ensures r.Ok? ==> (r.value.None? <==> file.Missing?)
      ensures r.Ok? && r.value.Some? ==> Sound(hash, r.value.value)
      ensures file.V2? ==> r == Ok(Some(file.state))
      ensures file.V1? && r.Ok? ==> r.value == Some(Migrated(hash, file.legacy))
    {
      match file {
        case Missing =>
          return Ok(None);
        case V1(s) =>
          if !LegacyState(s) {
            return Err(Raised("soak_state_invalid"));
          }
          var history: seq<Attempt> := [];
          for index := 0 to |s.trends|
            invariant history == LegacyHistory(hash, index)
            invariant |history| == index <= HISTORY_LIMIT
          {
            if |history| >= HISTORY_LIMIT {
              return Err(Raised("soak_attempt_limit"));
            }
            history := history + [NextAttempt(hash, history, index, Legacy, Pass, None)];
          }
          MigratedSound(hash, s);
          var t := s.(history := history, cursor := Cursor(history), nextPhase := On);
          var ok := ValidateAttemptHistory(hash, t.history, t.cursor);
          assert ok;
          return Ok(Some(t));
        case V2(s) =>
          var ok := ValidateAttemptHistory(hash, s.history, s.cursor);
          if !ok {
            return Err(Raised("soak_state_invalid"));
          }
          return Ok(Some(s));
      }
    }

    /** The gate record of this soak may be written: its wheel is the passed one, its input the recorded one. */
    ghost predicate GateOpen(inputs: Inputs)
      reads store
    {
      && store.Valid()
      && GateStore.IsSha256(inputs.inputHash)
      && GateStore.BoundWheel(store.hash, store.checkpoint)
      && store.checkpoint["wheel"].details.binding == Some(inputs.wheelBinding)
      && store.checkpoint["wheel"].details.provenance == Some(inputs.candidateDigest)
      && ("soak" in store.checkpoint ==> store.checkpoint["soak"].inputHash == inputs.inputHash)
    }

    /** A verdict that was given is in both evidence files, as one record. */
    ghost predicate Recorded(end: End)
      reads store
    {
      end.Verdict? ==>
        && "soak" in store.checkpoint && "soak" in store.evidence
        && store.checkpoint["soak"] == store.evidence["soak"]
        && store.checkpoint["soak"].status == if end.passed then GateStore.Pass else GateStore.Fail
    }

    /** No gate but the soak's has changed, and that one only after the state file, to the same verdict and inputs. */
    ghost predicate GateFollows(checkpoint: GateStore.Gates, evidence: GateStore.Gates)
      reads this, store
    {
      || (store.checkpoint == checkpoint && store.evidence == evidence)
      || (&& GateStore.OthersKept(checkpoint, store.checkpoint, "soak")
          && GateStore.OthersKept(evidence, store.evidence, "soak")
          && file.V2? && file.state.status in {Status.Passed, Failed} && "soak" in store.checkpoint
          && Speaks(store.checkpoint["soak"], file.state))
    }

    lemma NoGateYet()
      ensures GateFollows(store.checkpoint, store.evidence)
    {
    }

    /** Recording the gate of a soak that is over. */
    method RecordVerdict(s: State, other: string) returns (end: End)
      requires Valid() && GateOpen(s.inputs) && s.status in {Status.Passed, Failed} && file == V2(s)
      modifies store
      ensures Valid() && GateStore.KeepsWriteOnce(old(store.checkpoint), store.checkpoint)
      ensures end == Verdict(s.status == Status.Passed) || end == Crashed || end == Raised("evidence_invalid")
      ensures Recorded(end)
      ensures end.Raised? ==>
                GateOpen(s.inputs) && store.checkpoint == old(store.checkpoint) && store.evidence == old(store.evidence)
      ensures GateFollows(old(store.checkpoint), old(store.evidence))
    {
      hide Sound;
      var details := GateStore.Details(None, Some(s.inputs.candidateDigest), Some(s.inputs.wheelBinding), other);
      var status := if s.status == Status.Passed then GateStore.Pass else GateStore.Fail;
      var step := store.RecordGate(GateStore.Record("soak", s.inputs.inputHash, status, details));
      match step {
        case Done => return Verdict(s.status == Status.Passed);
        case Crashed => return Crashed;
        case Refused(category) => return Raised(category);
      }
    }

    /** Persists the verdict in the state file, then records the gate. */
    method Finish(s: State, passed: bool, other: string) returns (end: End)
      requires Valid() && Sound(hash, s) && GateOpen(s.inputs)
      requires passed ==> s.elapsed >= s.inputs.targetSeconds as real
      modifies this`file, store
      ensures Valid() && GateStore.KeepsWriteOnce(old(store.checkpoint), store.checkpoint)
      ensures var t := s.(status := if passed then Status.Passed else Failed);
              file == V2(t) || (end == Crashed && file == old(file))
      ensures end == Verdict(passed) || end == Crashed || end == Raised("evidence_invalid")
      ensures Recorded(end)
      ensures end.Raised? ==>
                GateOpen(s.inputs) && store.checkpoint == old(store.checkpoint) && store.evidence == old(store.evidence)
      ensures GateFollows(old(store.checkpoint), old(store.evidence))
    {
      hide ValidHistory, Shape, CyclesOrdered, Covered, GateFollows, GateStore.StoreInvariant, GateStore.BoundWheel;
      var t := s.(status := if passed then Status.Passed else Failed);
      var crashed := WriteState(t);
      if crashed {
        NoGateYet();
        return Crashed;
      }
      end := RecordVerdict(t, other);
    }

    /** Whether the working copy still is what was copied: up to the world. */
    method WorkingCopyIsIntact() returns (intact: bool)
      modifies this`looks
      ensures looks == old(looks) + [intact]
    {
      intact := *;
      looks := looks + [intact];
    }

    method ProbeOn() returns (r: Result<OnPayload, string>)
      modifies this`probedOn
      ensures r.Ok? ==> probedOn == Some(r.value)
    {
      r := *;
      probedOn := if r.Ok? then Some(r.value) else None;
    }

    method ProbeOff() returns (r: Result<OffPayload, string>)
      modifies this`probedOff
      ensures r.Ok? ==> probedOff == Some(r.value)
    {
      r := *;
      probedOff := if r.Ok? then Some(r.value) else None;
    }

    /** What became of one cycle: a further state, an error met in some state, or a crash. */
    ghost predicate CycleEnd(s: State, r: Result<State, (State, End)>)
      reads this, store
    {
      if r.Ok? then
        && Sound(hash, r.value) && r.value.status == Running && Continued(s, r.value)
        && r.value.completedCycles == s.completedCycles + 1 && |r.value.trends| == |s.trends| + 1
        && PairDone(r.value.(completedCycles := s.completedCycles)) && |r.value.history| == |s.history| + 2
        && r.value.nextPhase == On && file == V2(r.value)
      else
        && Sound(hash, r.error.0) && r.error.0.status == Running && Continued(s, r.error.0)
        && !r.error.1.Verdict?
    }

    /** The pair of the current cycle, passed and checkpointed; or an error met on the way. */
    ghost predicate PairEnd(s: State, r: Result<State, (State, End)>)
      reads this, store
    {
      if r.Ok? then
        && Sound(hash, r.value) && r.value.status == Running && Continued(s, r.value)
        && r.value.completedCycles == s.completedCycles && r.value.trends == s.trends && r.value.elapsed == s.elapsed
        && PairDone(r.value) && |r.value.history| == |s.history| + 2
        && r.value.nextPhase == On && file == V2(r.value)
      else
        && Sound(hash, r.error.0) && r.error.0.status == Running && Continued(s, r.error.0)
        && r.error.0.trends == s.trends && r.error.0.elapsed == s.elapsed
        && !r.error.1.Verdict?
    }

    /** One ON/OFF pair, each half checkpointed as soon as it has passed. */
    method RunPair(s: State) returns (r: Result<State, (State, End)>)
      requires Valid() && Sound(hash, s) && s.nextPhase == On && s.status == Running
      modifies this`file, this`probedOn, this`probedOff, this`looks
      ensures Valid()
      ensures PairEnd(s, r)
      ensures r.Ok? ==> probedOn.Some? && probedOff.Some? && looks == old(looks) + [true, true]
      ensures file != old(file) ==> old(looks) + [true] <= looks
      ensures r.Err? && r.error.1 != Crashed ==> file == V2(r.error.0) || (file == old(file) && r.error.0 == s)
      ensures file == old(file) ||
              (file.V2? && Continued(s, file.state) && file.state.trends == s.trends && file.state.elapsed == s.elapsed)
    {
      hide ValidHistory, Shape, CyclesOrdered, Covered, GateStore.StoreInvariant;
      var on := ProbeOn();
      if on.Err? {
        return Err((s, Raised(on.error)));
      }
      var intact := WorkingCopyIsIntact();
      if !intact {
        return Err((s, Raised("working_copy_changed")));
      }
      var first := CheckpointPhase(s, On, Pass, None, Off);
      if first.Err? {
        return Err((s, first.error));
      }
      var s1 := first.value;
      var off := ProbeOff();
      if off.Err? {
        return Err((s1, Raised(off.error)));
      }
      intact := WorkingCopyIsIntact();
      if !intact {
        return Err((s1, Raised("working_copy_changed")));
      }
      var second := CheckpointPhase(s1, Off, Pass, None, On);
      if second.Err? {
        return Err((s1, second.error));
      }
      PairFormed(hash, s1);
      return Ok(second.value);
    }

    /** One cycle: a passed pair, then its trend and what the clock has gained since `since`. */
    method RunCycle(s: State, since: real) returns (r: Result<State, (State, End)>)
      requires ticks > 0 && since == clock(ticks - 1)
      requires Valid() && Sound(hash, s) && s.nextPhase == On && s.status == Running
      modifies this
      ensures Valid()
      ensures CycleEnd(s, r)
      ensures r.Err? && r.error.1 != Crashed ==> file == V2(r.error.0) || (file == old(file) && r.error.0 == s)
      ensures file == old(file) || (file.V2? && Continued(s, file.state))
      ensures ticks >= old(ticks)
      ensures var t := if r.Ok? then r.value else r.error.0;
              Timed(clock, s.elapsed, |s.trends|, t, old(ticks) - 1, ticks)
      ensures file == old(file) ||
              (file.V2? && Timed(clock, s.elapsed, |s.trends|, file.state, old(ticks) - 1, ticks))
      ensures r.Ok? ==>
                ticks == old(ticks) + 1 && probedOn.Some? && probedOff.Some?
                && Reports(Last(r.value.trends), probedOn.value, probedOff.value)
                && looks == old(looks) + [true, true]
    {
      hide ValidHistory, Shape, CyclesOrdered, Covered, GateStore.StoreInvariant, Timed;
      TimedAnyway(clock, s, ticks - 1, ticks);
      TimedAnyway(clock, s, ticks - 1, ticks + 1);
      r := RunPair(s);
      if r.Err? {
        return;
      }
      var s2 := r.value;
      var valid: bool := *;
      if !valid {
        return Err((s2, Raised("probe_invalid")));
      }
      var elapsedMs: real := *;
      var now := ReadClock();
      var trend := CombinedTrend(probedOn.value, probedOff.value, elapsedMs);
      CycleSound(hash, s2, trend, now - since);
      TimedCycle(clock, s2, trend, old(ticks));
      var s3 := CycleDone(s2, trend, now - since);
      var crashed := WriteState(s3);
      if crashed {
        return Err((s2, Crashed));
      }
      return Ok(s3);
    }

    /** An error inside the cycles: a recoverable one becomes a failed attempt, any other ends the soak. */
    method HandleFailure(s: State, category: string) returns (end: End)
      requires Valid() && Sound(hash, s) && s.status != Status.Passed && GateOpen(s.inputs)
      modifies this`file, this`looks, store
      ensures Valid() && GateStore.KeepsWriteOnce(old(store.checkpoint), store.checkpoint)
      ensures file == old(file) ||
              (file.V2? && Continued(s, file.state) && file.state.elapsed == s.elapsed && file.state.trends == s.trends)
      ensures end != Verdict(true) && Recorded(end)
      ensures GateFollows(old(store.checkpoint), old(store.evidence))
      ensures |looks| == |old(looks)| + 1 && old(looks) <= looks
      ensures !Last(looks) || category !in RECOVERABLE ==> file == V2(s.(status := Failed)) || end == Crashed
      ensures Last(looks) && category in RECOVERABLE ==>
                !end.Verdict? && store.checkpoint == old(store.checkpoint) && store.evidence == old(store.evidence)
      ensures file.V2? && file != old(file) ==> file.state.status != Status.Passed
      ensures end.Raised? && category in RECOVERABLE && end == Raised(category) ==>
                && |s.history| < HISTORY_LIMIT
                && file == V2(Checkpointed(hash, s, s.nextPhase, Fail, Some(category), On)
                              .(status := Running, lastFailure := Some(category)))
      ensures end.Verdict? || (end.Raised? && category !in RECOVERABLE) ==> file == V2(s.(status := Failed))
    {
      hide ValidHistory, Shape, CyclesOrdered, Covered, GateStore.StoreInvariant, GateStore.BoundWheel;
      var intact := WorkingCopyIsIntact();
      if category in RECOVERABLE && intact {
        RecoverableIsSafe(category);
        var r := CheckpointPhase(s, s.nextPhase, Fail, Some(category), On);
        if r.Err? {
          return r.error;
        }
        var t := r.value.(status := Running, lastFailure := Some(category));
        var crashed := WriteState(t);
        return if crashed then Crashed else Raised(category);
      }
      end := Finish(s, false, category);
    }

    /** Cycles until there are enough of them or enough time has passed. */
    method RunCycles(start: State, started: real, maxCycles: int) returns (r: Result<State, (State, End)>)
      requires ticks > 0 && started == clock(ticks - 1)
      requires Valid() && Sound(hash, start) && start.nextPhase == On && start.status == Running
      modifies this
      ensures Valid()
      ensures var s := if r.Ok? then r.value else r.error.0;
              Sound(hash, s) && s.status == Running && Continued(start, s)
      ensures r.Ok? ==>
                && r.value.nextPhase == On
                && (r.value.completedCycles >= maxCycles || r.value.elapsed >= start.inputs.targetSeconds as real)
                && (file == V2(r.value) || (file == old(file) && r.value == start))
      ensures r.Err? ==> !r.error.1.Verdict?
      ensures file == old(file) || (file.V2? && Continued(start, file.state))
      ensures ticks >= old(ticks)
      ensures r.Ok? ==>
                AllIntact(old(looks), looks) && |looks| == |old(looks)| + 2 * (|r.value.trends| - |start.trends|)
      ensures var s := if r.Ok? then r.value else r.error.0;
              Timed(clock, start.elapsed, |start.trends|, s, old(ticks) - 1, ticks)
      ensures file == old(file) ||
              (file.V2? && Timed(clock, start.elapsed, |start.trends|, file.state, old(ticks) - 1, ticks))
    {
      hide Sound, Timed;
      var s, since := start, started;
      TimedSame(clock, s, ticks - 1, ticks);
      var target := s.inputs.targetSeconds as real;
      while s.completedCycles < maxCycles && s.elapsed < target
        invariant Valid() && Sound(hash, s) && s.nextPhase == On && s.status == Running
        invariant Continued(start, s)
        invariant ticks >= old(ticks) && since == clock(ticks - 1)
        invariant Timed(clock, start.elapsed, |start.trends|, s, old(ticks) - 1, ticks)
        invariant file == V2(s) || (file == old(file) && s == start)
        invariant AllIntact(old(looks), looks) && |looks| == |old(looks)| + 2 * (|s.trends| - |start.trends|)
        decreases maxCycles - s.completedCycles
      {
        ghost var before, low, was := s, ticks, file;
        r := RunCycle(s, since);
        CycleAdds(start, before, if r.Ok? then r.value else r.error.0, old(ticks), low, ticks);
        if file != was {
          CycleAdds(start, before, file.state, old(ticks), low, ticks);
        } else if file == V2(before) {
          TimedWider(clock, start.elapsed, |start.trends|, before, old(ticks) - 1, low, old(ticks) - 1, ticks);
        }
        if r.Err? {
          return;
        }
        s, since := r.value, clock(ticks - 1);
      }
      r := Ok(s);
    }

    /** What a cycle counts is counted after what the cycles before it have. */
    lemma CycleAdds(start: State, before: State, later: State, first: nat, mid: nat, high: nat)
      requires 0 < first <= mid <= high
      requires Timed(clock, start.elapsed, |start.trends|, before, first - 1, mid)
      requires Timed(clock, before.elapsed, |before.trends|, later, mid - 1, high)
      ensures Timed(clock, start.elapsed, |start.trends|, later, first - 1, high)
    {
      hide Timed;
      TimedJoin(clock, start.elapsed, |start.trends|, before, later, first - 1, mid, mid - 1, high);
    }

    /** The verdict after the cycles. */
    method Conclude(s: State) returns (end: End)
      requires Valid() && Sound(hash, s) && s.status == Running && GateOpen(s.inputs)
      modifies this`file, this`looks, store
      ensures Valid() && GateStore.KeepsWriteOnce(old(store.checkpoint), store.checkpoint)
      ensures file == old(file) ||
              (file.V2? && Continued(s, file.state) && file.state.elapsed == s.elapsed && file.state.trends == s.trends)
      ensures Recorded(end) && GateFollows(old(store.checkpoint), old(store.evidence))
      ensures end == Verdict(true) ==>
                && file.V2? && file.state.status == Status.Passed
                && file.state.elapsed >= file.state.inputs.targetSeconds as real
                && looks == old(looks) + [true] && file.state.trends == s.trends
    {
      hide ValidHistory, Shape, CyclesOrdered, Covered, GateStore.StoreInvariant, GateStore.BoundWheel,
        GateStore.OthersKept, Speaks;
      var intact := WorkingCopyIsIntact();
      if !intact {
        end := HandleFailure(s, "working_copy_changed");
        return;
      }
      if s.elapsed < s.inputs.targetSeconds as real {
        var crashed := WriteState(s.(lastFailure := Some("duration_incomplete")));
        return if crashed then Crashed else Raised("duration_incomplete");
      }
      end := Finish(s, true, "");
      if end.Raised? {
        end := HandleFailure(s, end.category);
      }
    }

    /** What comes of the cycles: an error met in them, or the verdict. */
    method Answer(cycles: Result<State, (State, End)>) returns (end: End)
      requires Valid() && (cycles.Err? ==> !cycles.error.1.Verdict?)
      requires var s := if cycles.Ok? then cycles.value else cycles.error.0;
               Sound(hash, s) && s.status == Running && GateOpen(s.inputs)
      modifies this`file, this`looks, store
      ensures Valid() && GateStore.KeepsWriteOnce(old(store.checkpoint), store.checkpoint)
      ensures var s := if cycles.Ok? then cycles.value else cycles.error.0;
              file == old(file) ||
              (file.V2? && Continued(s, file.state) && file.state.elapsed == s.elapsed && file.state.trends == s.trends)
      ensures Recorded(end) && GateFollows(old(store.checkpoint), old(store.evidence))
      ensures end == Verdict(true) ==>
                && cycles.Ok? && file.V2? && file.state.status == Status.Passed
                && file.state.elapsed >= file.state.inputs.targetSeconds as real
                && looks == old(looks) + [true] && file.state.trends == cycles.value.trends
    {
      hide Sound, Recorded, GateFollows, GateOpen, Continued;
      if cycles.Ok? {
        end := Conclude(cycles.value);
        return;
      }
      var (s, e) := cycles.error;
      if e == Crashed || e == Raised("duration_incomplete") {
        NoGateYet();
        NothingSaid(e);
        return e;
      }
      end := HandleFailure(s, e.category);
    }

    lemma NothingSaid(end: End)
      requires !end.Verdict?
      ensures Recorded(end)
    {
    }

    /** The loop of cycles and the verdict. */
    method Run(start: State, started: real, maxCycles: int) returns (end: End)
      requires ticks > 0 && started == clock(ticks - 1)
      requires Valid() && Sound(hash, start) && start.nextPhase == On && start.status == Running
      requires GateOpen(start.inputs)
      modifies this, store
      ensures Valid() && GateStore.KeepsWriteOnce(old(store.checkpoint), store.checkpoint)
      ensures file == old(file) || (file.V2? && Continued(start, file.state))
      ensures ticks >= old(ticks)
      ensures file == old(file) ||
              (file.V2? && Timed(clock, start.elapsed, |start.trends|, file.state, old(ticks) - 1, ticks))
      ensures Recorded(end) && GateFollows(old(store.checkpoint), old(store.evidence))
      ensures end == Verdict(true) ==>
                && file.V2? && file.state.status == Status.Passed
                && file.state.elapsed >= file.state.inputs.targetSeconds as real
                && AllIntact(old(looks), looks)
                && |looks| == |old(looks)| + 2 * (|file.state.trends| - |start.trends|) + 1
    {
      hide Sound, Recorded, GateFollows, GateOpen, Timed;
      var cycles := RunCycles(start, started, maxCycles);
      TimedLike(clock, start.elapsed, |start.trends|, if cycles.Ok? then cycles.value else cycles.error.0,
                old(ticks) - 1, ticks);
      end := Answer(cycles);
    }

    /** A soak that nothing has been counted in. */
    predicate Begun(f: StateFile, s: State)
    {
      f == V2(s) && s.elapsed == 0.0 && s.trends == [] && s.history == []
    }

    /** Copying the vault and opening a new state document. */
    method Open(inputs: Inputs) returns (r: Result<State, End>)
      requires Valid() && file.Missing?
      modifies this`file
      ensures Valid()
      ensures r.Ok? ==> r.value == Fresh(inputs) && file == V2(r.value)
      ensures r.Ok? ==> r.value.inputs == inputs && r.value.status == Running && Sound(hash, r.value)
      ensures r.Ok? ==> Begun(file, r.value)
      ensures file.V2? ==> file.state.elapsed == 0.0 && file.state.trends == [] && file.state.history == []
      ensures r.Err? ==> !r.error.Verdict?
      ensures file.Missing? || file == V2(Fresh(inputs))
    {
      var copied: bool := *;
      if !copied {
        return Err(Raised("working_copy_invalid"));
      }
      var crashed := WriteState(Fresh(inputs));
      return if crashed then Err(Crashed) else Ok(Fresh(inputs));
    }

    /** Closing the pair that an interruption left open. */
    method Resume(s: State) returns (r: Result<State, End>)
      requires Valid() && Sound(hash, s) && s.status in {Running, Ready} && |s.history| < HISTORY_LIMIT
      modifies this`file
      ensures Valid()
      ensures r.Ok? ==>
                && Sound(hash, r.value) && Onward(s, r.value)
                && r.value.status == Running && r.value.nextPhase == On
                && (s.nextPhase == On ==> r.value == s.(status := Running) && file == old(file))
                && (s.nextPhase == Off ==>
                      && r.value == Checkpointed(hash, s.(status := Running), Off, Fail, Some("probe_interrupted"), On)
                      && file == V2(r.value))
      ensures r.Err? ==> !r.error.Verdict?
      ensures file == old(file) ||
              (file.V2? && Onward(s, file.state) && file.state.elapsed == s.elapsed && file.state.trends == s.trends)
    {
      hide ValidHistory, Shape, CyclesOrdered, Covered;
      var t := s.(status := Running);
      if t.nextPhase != Off {
        return Ok(t);
      }
      RecoverableIsSafe("probe_interrupted");
      r := CheckpointPhase(t, Off, Fail, Some("probe_interrupted"), On);
    }

    /**
     * The checks before any work: limits, the paths, a bound wheel, no gate recorded for other
     * inputs. `paths` and `work` are the errors of resolving vault, candidate and output, and
     * the working root, if any.
     */
    method Admit(inputHash: string -> string, targetSeconds: int, candidateDigest: string, probeTimeout: int,
                 pageTimeout: int, maxCycles: int, intervalSeconds: int, paths: Option<string>, work: Option<string>)
      returns (r: Result<Inputs, End>)
      requires Valid() && forall binding :: GateStore.IsSha256(inputHash(binding))
      ensures r.Ok? <==>
                && 1 <= targetSeconds <= MAX_DURATION && 1 <= maxCycles <= MAX_CYCLES
                && 0 <= intervalSeconds <= MAX_INTERVAL && 1 <= probeTimeout <= MAX_PROBE && 2 <= pageTimeout <= 120
                && paths.None? && work.None?
                && store.checkpoint == store.evidence && GateStore.BoundWheel(store.hash, store.checkpoint)
                && store.checkpoint["wheel"].details.provenance == Some(candidateDigest)
                && ("soak" in store.checkpoint ==>
                      store.checkpoint["soak"].inputHash == inputHash(store.checkpoint["wheel"].details.binding.value))
      ensures r.Ok? ==>
                && GateOpen(r.value)
                && r.value == Inputs(inputHash(r.value.wheelBinding), targetSeconds, candidateDigest,
                             r.value.wheelBinding, pageTimeout)
      ensures r.Err? ==> r.error.Raised?
    {
      if !(1 <= targetSeconds <= MAX_DURATION) {
        return Err(Raised("duration_invalid"));
      }
      if !(1 <= maxCycles <= MAX_CYCLES) {
        return Err(Raised("cycles_invalid"));
      }
      if !(0 <= intervalSeconds <= MAX_INTERVAL) {
        return Err(Raised("interval_invalid"));
      }
      if !(1 <= probeTimeout <= MAX_PROBE) {
        return Err(Raised("timeout_invalid"));
      }
      if !(2 <= pageTimeout <= 120) {
        return Err(Raised("page_parse_timeout_invalid"));
      }
      if paths.Some? {
        return Err(Raised(paths.value));
      }
      var binding := store.RequireBoundWheel(candidateDigest);
      if binding.Err? {
        return Err(Raised(binding.error));
      }
      if work.Some? {
        return Err(Raised(work.value));
      }
      var inputs := Inputs(inputHash(binding.value), targetSeconds, candidateDigest, binding.value, pageTimeout);
      var step := store.RequireMatchingInput("soak", inputs.inputHash);
      if step.Refused? {
        return Err(Raised(step.category));
      }
      return Ok(inputs);
    }

    /** A resume that finds its working copy gone or changed. */
    method Abandon(s: State) returns (end: End)
      requires Valid() && Sound(hash, s) && GateOpen(s.inputs)
      modifies this`file, store
      ensures Valid() && GateStore.KeepsWriteOnce(old(store.checkpoint), store.checkpoint)
      ensures file == old(file) ||
              (file.V2? && Onward(s, file.state) && file.state.elapsed == s.elapsed && file.state.trends == s.trends)
      ensures end != Verdict(true) && Recorded(end)
      ensures GateFollows(old(store.checkpoint), old(store.evidence))
    {
      end := Finish(s, false, "working_copy_changed");
    }

    /** From a state at hand: close what an interruption left open, then run the cycles. */
    method Proceed(s: State, maxCycles: int) returns (end: End)
      requires Valid() && Sound(hash, s) && s.status in {Running, Ready} && GateOpen(s.inputs)
      modifies this, store
      ensures Valid() && GateStore.KeepsWriteOnce(old(store.checkpoint), store.checkpoint)
      ensures file == old(file) || (file.V2? && Onward(s, file.state))
      ensures ticks >= old(ticks)
      ensures file == old(file) ||
              (file.V2? && Timed(clock, s.elapsed, |s.trends|, file.state, old(ticks), ticks))
      ensures Recorded(end) && GateFollows(old(store.checkpoint), old(store.evidence))
      ensures end == Verdict(true) ==>
                && file.V2? && file.state.status == Status.Passed
                && file.state.elapsed >= file.state.inputs.targetSeconds as real
                && AllIntact(old(looks), looks) && |looks| > |old(looks)|
    {
      hide ValidHistory, Shape, CyclesOrdered, Covered, GateStore.StoreInvariant, GateStore.BoundWheel, Timed,
        GateFollows;
      TimedAnyway(clock, s, old(ticks), ticks);
      if |s.history| >= HISTORY_LIMIT {
        end := Finish(s, false, "soak_attempt_limit");
        return;
      }
      var started := ReadClock();
      TimedAnyway(clock, s, old(ticks), ticks);
      var resumed := Resume(s);
      if resumed.Err? {
        NoGateYet();
        return resumed.error;
      }
      label Running:
      end := Run(resumed.value, started, maxCycles);
      TimedAnyway(clock, s, old(ticks), ticks);
      if file != old@Running(file) {
        assert Onward(s, file.state);
      }
    }

    /**
     * One collection, new or resumed, cut off anywhere. The state file only ever moves on:
     * a terminal state stays, a resumed one is continued with its open pair closed as failed.
     */
    method Collect(inputHash: string -> string, targetSeconds: int, candidateDigest: string, probeTimeout: int,
                   pageTimeout: int, maxCycles: int, intervalSeconds: int, paths: Option<string>, work: Option<string>)
      returns (end: End)
      requires Valid() && forall binding :: GateStore.IsSha256(inputHash(binding))
      modifies this, store
      ensures Valid() && GateStore.KeepsWriteOnce(old(store.checkpoint), store.checkpoint)
      ensures file == old(file) || file.V2?
      ensures old(file).V2? ==> file == old(file) || Onward(old(file).state, file.state)
      ensures old(file).V2? && old(file).state.status in {Status.Passed, Failed} ==> file == old(file)
      ensures old(file).V1? ==>
                file == old(file) || (file.V2? && Onward(Migrated(hash, old(file).legacy), file.state))
      ensures ticks >= old(ticks) && TimedFile(clock, old(file), file, old(ticks), ticks)
      ensures end == Verdict(true) && old(file).Missing? ==> file.V2? && |file.state.trends| > 0
      ensures Recorded(end) && GateFollows(old(store.checkpoint), old(store.evidence))
      ensures end == Verdict(true) ==>
                && file.V2? && file.state.status == Status.Passed
                && file.state.elapsed >= file.state.inputs.targetSeconds as real
                && AllIntact(old(looks), looks) && |looks| > |old(looks)|
    {
      hide Sound, ClosesInterrupted, Migrated, Timed, GateOpen, GateStore.StoreInvariant, GateStore.BoundWheel,
        GateFollows;
      NoGateYet();
      SameTime(clock, file, ticks, ticks);
      var admitted := Admit(inputHash, targetSeconds, candidateDigest, probeTimeout, pageTimeout,
                            maxCycles, intervalSeconds, paths, work);
      if admitted.Err? {
        return admitted.error;
      }
      var entered := Enter(admitted.value);
      if entered.Err? {
        SameCounted(clock, old(file), file, ticks, ticks);
        return entered.error;
      }
      ghost var s, was := entered.value, file;
      end := Proceed(entered.value, maxCycles);
      EnteredIsCounted(hash, old(file), s);
      CountedOn(clock, old(file), s, was, file, old(ticks), ticks);
      if end == Verdict(true) && old(file).Missing? {
        TimeTakesCycles(clock, file.state, old(ticks), ticks);
      }
    }

    /** Reading the state file or opening a new one, and the checks on what was found; an error may end the soak. */
    method Enter(inputs: Inputs) returns (r: Result<State, End>)
      requires Valid() && GateOpen(inputs)
      modifies this`file, this`looks, store
      ensures Valid() && GateStore.KeepsWriteOnce(old(store.checkpoint), store.checkpoint)
      ensures GateFollows(old(store.checkpoint), old(store.evidence))
      ensures r.Ok? ==>
                && looks == old(looks) + (if old(file).Missing? then [] else [true])
                && store.checkpoint == old(store.checkpoint) && store.evidence == old(store.evidence)
      ensures r.Ok? ==>
                && Sound(hash, r.value) && r.value.status in {Running, Ready}
                && r.value.inputs == inputs && GateOpen(inputs)
                && Entered(hash, old(file), r.value)
                && (if old(file).Missing? then file == V2(r.value) else file == old(file))
      ensures r.Err? ==> r.error != Verdict(true) && Recorded(r.error)
      ensures r.Err? ==> file == old(file) || file.V2?
      ensures r.Err? && file != old(file) ==> Counted(old(file), file.state)
      ensures old(file).V2? ==> file == old(file) || Onward(old(file).state, file.state)
      ensures old(file).V2? && old(file).state.status in {Status.Passed, Failed} ==> file == old(file) && r.Err?
      ensures old(file).V1? ==>
                file == old(file) || (file.V2? && Onward(Migrated(hash, old(file).legacy), file.state))
    {
      hide ValidHistory, Shape, CyclesOrdered, Covered, Fresh, GateStore.StoreInvariant, GateStore.BoundWheel;
      var loaded := LoadState();
      if loaded.Err? {
        return Err(loaded.error);
      }
      match loaded.value {
        case None =>
          r := Open(inputs);
        case Some(found) =>
          if found.inputs != inputs || found.status !in {Running, Ready} {
            return Err(Raised("soak_resume_mismatch"));
          }
          var intact := WorkingCopyIsIntact();
          if !intact {
            var end := Abandon(found);
            return Err(end);
          }
          return Ok(found);
      }
    }
  }

  /** The state a collection starts from. */
  ghost predicate Entered(hash: Hash, before: StateFile, s: State) {
    match before
    case Missing => s.elapsed == 0.0 && s.trends == [] && s.history == []
    case V1(legacy) => s == Migrated(hash, legacy)
    case V2(state) => s == state
  }

  /** A state with no more time and no more trends than the file has; none in a missing file. */
  ghost predicate Counted(before: StateFile, s: State) {
    match before
    case Missing => s.elapsed == 0.0 && s.trends == []
    case V1(legacy) => s.elapsed == legacy.elapsed && s.trends == legacy.trends
    case V2(state) => s.elapsed == state.elapsed && s.trends == state.trends
  }

  lemma EnteredIsCounted(hash: Hash, before: StateFile, s: State)
    requires Entered(hash, before, s)
    ensures Counted(before, s)
  {
  }

  lemma SameCounted(clock: Clock, before: StateFile, after: StateFile, low: nat, high: nat)
    requires after == before || (after.V2? && Counted(before, after.state))
    ensures TimedFile(clock, before, after, low, high)
  {
    hide Timed;
    if after == before {
      SameTime(clock, before, low, high);
    } else {
      TimedSame(clock, after.state, low, high);
    }
  }

  lemma CountedOn(clock: Clock, before: StateFile, s: State, was: StateFile, after: StateFile, low: nat, high: nat)
    requires Counted(before, s) && was == if before.Missing? then V2(s) else before
    requires after == was || (after.V2? && Timed(clock, s.elapsed, |s.trends|, after.state, low, high))
    ensures TimedFile(clock, before, after, low, high)
  {
    hide Timed;
    if after == was {
      SameCounted(clock, before, after, low, high);
    }
  }

  const MAX_DURATION := 7 * 24 * 60 * 60
  const MAX_INTERVAL := 60 * 60

  const MAX_PROBE := 900

  function Fresh(inputs: Inputs): State {
    State(inputs, Running, 0, [], On, [], "", 0.0, None)
  }

  /** A continuation that has dealt with an interruption before anything else. */
  ghost predicate Onward(s: State, later: State) {
    Continued(s, later) && ClosesInterrupted(s, later)
  }

  lemma OnwardTransitive(a: State, b: State, c: State)
    requires Onward(a, b) && Onward(b, c)
    ensures Onward(a, c)
  {
  }

  /** A state file that a run leaves, seen from the one it found. */
  ghost predicate FileOnward(hash: Hash, before: StateFile, after: StateFile) {
    match before
    case Missing => !after.V1?
    case V1(legacy) => after == before || (after.V2? && Onward(Migrated(hash, legacy), after.state))
    case V2(state) => after.V2? && Onward(state, after.state)
  }

  /** Every second a file counts more than before was gained by the clock up to the end of a cycle of its own. */
  ghost predicate TimedFile(clock: Clock, before: StateFile, after: StateFile, low: nat, high: nat) {
    match before
    case Missing => !after.V1? && (after.V2? ==> Timed(clock, 0.0, 0, after.state, low, high))
    case V1(legacy) =>
      after == before || (after.V2? && Timed(clock, legacy.elapsed, |legacy.trends|, after.state, low, high))
    case V2(state) => after.V2? && Timed(clock, state.elapsed, |state.trends|, after.state, low, high)
  }

  lemma SameTime(clock: Clock, file: StateFile, low: nat, high: nat)
    ensures TimedFile(clock, file, file, low, high)
  {
    hide Timed;
    if file.V2? {
      TimedSame(clock, file.state, low, high);
    }
  }

  lemma TimedFileTransitive(clock: Clock, a: StateFile, b: StateFile, c: StateFile, low: nat, mid: nat, high: nat)
    requires low <= mid <= high && TimedFile(clock, a, b, low, mid) && TimedFile(clock, b, c, mid, high)
    ensures TimedFile(clock, a, c, low, high)
  {
    hide Timed;
    if b.V2? {
      var elapsed, trends := if a.Missing? then 0.0 else if a.V1? then a.legacy.elapsed else a.state.elapsed,
                             if a.Missing? then 0 else if a.V1? then |a.legacy.trends| else |a.state.trends|;
      TimedJoin(clock, elapsed, trends, b.state, c.state, low, mid, mid, high);
    } else if c.V2? {
      var elapsed, trends := if b.Missing? then 0.0 else b.legacy.elapsed, if b.Missing? then 0 else |b.legacy.trends|;
      TimedWider(clock, elapsed, trends, c.state, mid, high, low, high);
    }
  }

  lemma FileOnwardTransitive(hash: Hash, a: StateFile, b: StateFile, c: StateFile)
    requires FileOnward(hash, a, b) && FileOnward(hash, b, c)
    ensures FileOnward(hash, a, c)
  {
    hide Onward, Migrated;
    if c != b && b.V2? && !a.Missing? {
      OnwardTransitive(if a.V1? then Migrated(hash, a.legacy) else a.state, b.state, c.state);
    }
  }

  /**
   * Any number of collections of any kind, one after another, each with limits and inputs of its
   * own and each possibly cut off by a crash: the state file stays sound and only moves on, a legacy one from
   * what it migrates to; what it counts is time the clock gained in cycles of its own; an interrupted pair
   * is closed first; the write-once gates stay put.
   */
  method EveryRun(c: Collector, steps: nat, inputHash: nat -> string -> string, reportHash: GateStore.Gates -> string)
    requires c.Valid()
    requires forall k, binding :: GateStore.IsSha256(inputHash(k)(binding))
    requires forall gates :: GateStore.IsSha256(reportHash(gates))
    modifies c, c.store
    ensures c.Valid() && GateStore.KeepsWriteOnce(old(c.store.checkpoint), c.store.checkpoint)
    ensures FileOnward(c.hash, old(c.file), c.file)
    ensures c.ticks >= old(c.ticks) && TimedFile(c.clock, old(c.file), c.file, old(c.ticks), c.ticks)
  {
    hide Sound, GateStore.StoreInvariant, FileOnward, TimedFile;
    SameFile(c.hash, c.file);
    SameTime(c.clock, c.file, c.ticks, c.ticks);
    for k := 0 to steps
      invariant c.Valid() && GateStore.KeepsWriteOnce(old(c.store.checkpoint), c.store.checkpoint)
      invariant FileOnward(c.hash, old(c.file), c.file)
      invariant c.ticks >= old(c.ticks) && TimedFile(c.clock, old(c.file), c.file, old(c.ticks), c.ticks)
    {
      var kind: int := *;
      var text1: string, text2: string, text3: string := *, *, *;
      if kind == 0 {
        var a: int, b: int, d: int, e: int, f: int := *, *, *, *, *;
        var paths: Option<string>, work: Option<string> := *, *;
        ghost var before, mid := c.file, c.ticks;
        var end := c.Collect(inputHash(k), a, text1, b, d, e, f, paths, work);
        Collected(c.hash, before, c.file);
        FileOnwardTransitive(c.hash, old(c.file), before, c.file);
        TimedFileTransitive(c.clock, old(c.file), before, c.file, old(c.ticks), mid, c.ticks);
      } else if kind == 1 && GateStore.IsSha256(text1) && GateStore.IsSha256(text2) {
        var checks: Option<bool> := *;
        var step := c.store.CollectWheel(text1, text2, text3, checks, "");
      } else if kind == 2 && GateStore.IsSha256(text1) && !GateStore.WriteOnce(text2) {
        var status: GateStore.Status, details: GateStore.Details := *, *;
        var step := c.store.CollectOther(text2, text1, status, details);
      } else {
        var ready, step := c.store.CollectReport(reportHash);
      }
    }
  }

  /** What one collection says of the file. */
  lemma Collected(hash: Hash, before: StateFile, after: StateFile)
    requires after == before || after.V2?
    requires before.V2? ==> after == before || Onward(before.state, after.state)
    requires before.V1? ==> after == before || (after.V2? && Onward(Migrated(hash, before.legacy), after.state))
    ensures FileOnward(hash, before, after)
  {
    SameFile(hash, before);
  }

  lemma SameFile(hash: Hash, file: StateFile)
    ensures FileOnward(hash, file, file)
  {
  }
}
