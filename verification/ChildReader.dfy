/** Draining a child's two pipes under limits, then finalising it, then answering. */
module ChildReader {
  import opened Common
  import opened CleanupSnapshot
  import opened ChildCleanup

  const CHUNK := 65536

  datatype Reason =
    | StdoutOverflow | StderrOverflow | ReadError | Timeout | Interrupted | Internal
    | GroupCheckFailed | SurvivingGroup | CleanupError

  datatype ReadResult = Chunk(bytes: seq<int>) | End | NothingYet | Broken

  /** One pipe: everything the child will ever write to it, and what was read and kept so far. */
  class Pipe {
    const handle: int
    const data: seq<int>
    const limit: nat
    var delivered: nat
    var captured: seq<int>
    var registered: bool
    var broken: bool

    /**
     * What is kept is an exact prefix within the limit, at most one byte more was ever read,
     * and a pipe is only given up when all of it was kept.
     */
    ghost predicate Valid()
      reads this
    {
      && captured <= data && |captured| <= limit
      && |captured| <= delivered <= |data| && delivered <= limit + 1
      && (!registered ==> captured == data)
    }

    /** Every byte read so far was kept, and no read has failed. */
    ghost predicate InStep()
      reads this
    {
      delivered == |captured| && !broken
    }

    constructor (handle: int, data: seq<int>, limit: nat)
      ensures Valid() && InStep() && registered && captured == []
      ensures this.handle == handle && this.data == data && this.limit == limit
    {
      this.handle, this.data, this.limit := handle, data, limit;
      delivered, captured, registered, broken := 0, [], true, false;
    }

    /** A read returns any nonempty part of what is left, the end only at the end, or no bytes at all. */
    method Read(request: nat) returns (r: ReadResult)
      requires Valid() && InStep() && 0 < request <= limit + 1 - delivered
      modifies this`delivered, this`broken
      ensures broken <==> r.Broken?
      ensures r.Chunk? ==>
                && 0 < |r.bytes| <= request && delivered == old(delivered) + |r.bytes| <= |data|
                && r.bytes == data[old(delivered)..delivered]
      ensures r.End? ==> old(delivered) == |data|
      ensures !r.Chunk? ==> delivered == old(delivered)
    {
      var kind: int, size: nat := *, *;
      if kind == 0 && 0 < size <= request && delivered + size <= |data| {
        r := Chunk(data[delivered..delivered + size]);
        delivered := delivered + size;
      } else if kind == 1 && delivered == |data| {
        r := End;
      } else if kind == 2 {
        r := Broken;
        broken := true;
      } else {
        r := NothingYet;
      }
    }

    /** Serving a pipe that is ready. */
    method Serve(overflow: Reason) returns (failure: Option<Reason>)
      requires Valid() && InStep() && registered
      modifies this
      ensures Valid()
      ensures failure.None? ==> InStep()
      ensures failure.Some? ==> failure.value == ReadError || failure.value == overflow
      ensures overflow != ReadError ==> (failure == Some(overflow) <==> delivered == limit + 1)
      ensures overflow != ReadError ==> (failure == Some(ReadError) <==> broken)
      ensures failure.Some? ==> registered
      ensures old(delivered) <= delivered <= old(delivered) + 65536
    {
      var request := limit + 1 - |captured|;
      if request > CHUNK {
        request := CHUNK;
      }
      var r := Read(request);
      match r {
        case NothingYet =>
          return None;
        case Broken =>
          return Some(ReadError);
        case End =>
          registered := false;
          return None;
        case Chunk(bytes) =>
          if |bytes| > limit - |captured| {
            return Some(overflow);
          }
          assert data[..delivered] == data[..|captured|] + bytes;
          captured := captured + bytes;
          return None;
      }
    }
  }

  /** Why reading ended: with nothing left to read, or with exactly the failure that was met. */
  ghost predicate Explained(failure: Option<Reason>, out: Pipe, err: Pipe)
    reads out, err
  {
    && (failure.None? ==> !out.registered && !err.registered && out.captured == out.data && err.captured == err.data)
    && (failure == Some(StdoutOverflow) <==> out.delivered == out.limit + 1)
    && (failure == Some(StderrOverflow) <==> err.delivered == err.limit + 1)
    && (failure == Some(ReadError) <==> out.broken || err.broken)
  }

  /** The failures of the read loop, each with what it takes, from clock reading `first` up to `ticks`. */
  ghost predicate Caused(failure: Option<Reason>, clock: Clock, first: nat, ticks: nat, timeout: real) {
    && (failure.Some? ==>
          failure.value in {StdoutOverflow, StderrOverflow, ReadError, Timeout, Interrupted, Internal})
    && first < ticks
    && (failure == Some(Internal) ==> clock(ticks - 1).None?)
    && (failure == Some(Timeout) ==>
          clock(first).Some? && clock(ticks - 1).Some? && clock(ticks - 1).value >= clock(first).value + timeout)
  }

  /** What a selector may answer: pipes still registered, each once, in any order. */
  ghost predicate Selectable(ready: seq<Pipe>, out: Pipe, err: Pipe)
    reads out, err
  {
    Distinct(ready) &&
    forall pipe :: pipe in ready ==> (pipe == out && out.registered) || (pipe == err && err.registered)
  }

  method Select(out: Pipe, err: Pipe) returns (ready: seq<Pipe>)
    requires out != err
    ensures Selectable(ready, out, err)
  {
    var outFirst: bool, outReady: bool, errReady: bool := *, *, *;
    var o := if outReady && out.registered then [out] else [];
    var e := if errReady && err.registered then [err] else [];
    ready := if outFirst then o + e else e + o;
  }

  /** Serving every pipe that is ready, until one fails. */
  method ServeReady(ready: seq<Pipe>, out: Pipe, err: Pipe) returns (failure: Option<Reason>)
    requires out != err && Selectable(ready, out, err)
    requires out.Valid() && out.InStep() && err.Valid() && err.InStep()
    modifies out, err
    ensures out.Valid() && err.Valid()
    ensures failure.None? ==> out.InStep() && err.InStep()
    ensures failure.Some? ==> Explained(failure, out, err) && (out.registered || err.registered)
    ensures failure.Some? ==> failure.value in {StdoutOverflow, StderrOverflow, ReadError}
  {
    failure := None;
    for i := 0 to |ready|
      invariant out.Valid() && out.InStep() && err.Valid() && err.InStep()
      invariant failure.None?
      invariant out in ready[i..] ==> out.registered
      invariant err in ready[i..] ==> err.registered
    {
      var pipe := ready[i];
      assert pipe in ready && ready[i..] == [pipe] + ready[i + 1..];
      assert pipe !in ready[i + 1..];
      if pipe == out {
        failure := out.Serve(StdoutOverflow);
      } else {
        failure := err.Serve(StderrOverflow);
      }
      if failure.Some? {
        return;
      }
    }
  }

  /**
   * The read loop, for any readiness, chunking and interruptions: it ends, and says
   * overflow only after the byte past the limit was delivered.
   */
  method Drain(os: System, out: Pipe, err: Pipe, timeout: real) returns (failure: Option<Reason>)
    requires Unbounded(os.clock) && out != err
    requires out.Valid() && out.InStep() && err.Valid() && err.InStep()
    modifies os`ticks, os`interrupted, out, err
    ensures os.ticks >= old(os.ticks)
    ensures out.Valid() && err.Valid()
    ensures Explained(failure, out, err) && Caused(failure, os.clock, old(os.ticks), os.ticks, timeout)
    ensures failure.Some? && failure != Some(Internal) ==> out.registered || err.registered
    ensures failure == Some(Interrupted) ==> os.interrupted
    ensures old(os.interrupted) ==> os.interrupted
  {
    hide Selectable;
    var start := os.Now();
    if start.None? {
      return Some(Internal);
    }
    var deadline := start.value + timeout;
    assert EventuallyPasses(os.clock, deadline);
    ghost var last: nat :| Passes(os.clock, deadline, last);
    while out.registered || err.registered
      invariant os.ticks > old(os.ticks) && (old(os.interrupted) ==> os.interrupted)
      invariant out.Valid() && out.InStep() && err.Valid() && err.InStep()
      decreases last - os.ticks
    {
      var now := os.Now();
      if now.None? {
        return Some(Internal);
      }
      if deadline - now.value <= 0.0 {
        return Some(Timeout);
      }
      var interrupted := os.Interrupts();
      if interrupted {
        return Some(Interrupted);
      }
      var ready := Select(out, err);
      failure := ServeReady(ready, out, err);
      if failure.Some? {
        return;
      }
    }
    failure := None;
  }

  /** The child was waited for, and its group then was gone. */
  ghost predicate AllWell(os: System, n: nat)
    reads os
  {
    |os.log| >= n + 2 && os.log[n] == Waited(Finished) && os.log[n + 1] == Probed(Some(false))
  }

  /** The last two clock readings, of a finalisation without a wait, lie within the budget. */
  ghost predicate EndedInTime(os: System, budget: real)
    reads os
  {
    os.ticks >= 2 && InTime(os.clock, os.ticks - 2, os.ticks, budget)
  }

  datatype ChildResult = ChildResult(stdout: seq<int>, stderr: seq<int>, cleanupEvents: seq<string>)

  datatype ChildFailure = ChildFailure(reason: Reason, cleanupOk: bool, cleanupEvents: seq<string>, snapshot: Document)

  /** Waiting for the child and looking at its group once it has said everything. */
  method Settle(os: System) returns (failure: Option<Reason>, observations: seq<string>)
    modifies os`log
    ensures Settled(failure, observations, os.log, |old(os.log)|) && old(os.log) <= os.log
  {
    observations := [];
    var waited := os.Wait();
    match waited {
      case WaitTimedOut => return Some(Timeout), [];
      case WaitInterrupted => return Some(Interrupted), [];
      case WaitFailed => return Some(Internal), [];
      case Finished =>
    }
    var group := os.Probe();
    var denied: bool := *;
    if group == Some(true) && denied {
      observations := ["group_probe_eperm_observed"];
    }
    if group.None? {
      failure := Some(GroupCheckFailed);
    } else if group.value && observations == [] {
      failure := Some(SurvivingGroup);
    } else {
      failure := None;
    }
  }

  /** What the wait and the look at place `n` come to; a look that was denied only leaves an observation. */
  ghost predicate Settled(failure: Option<Reason>, observations: seq<string>, log: seq<Event>, n: nat) {
    && n < |log| && log[n].Waited?
    && match log[n].wait
       case WaitTimedOut => failure == Some(Timeout) && |log| == n + 1
       case WaitInterrupted => failure == Some(Interrupted) && |log| == n + 1
       case WaitFailed => failure == Some(Internal) && |log| == n + 1
       case Finished =>
         && |log| == n + 2 && log[n + 1].Probed?
         && (observations != [] ==> log[n + 1] == Probed(Some(true)))
         && failure == if log[n + 1] == Probed(None) then Some(GroupCheckFailed)
                       else if log[n + 1] == Probed(Some(true)) && observations == [] then Some(SurvivingGroup)
                       else None
  }

  /** Everything up to the finalisation: reading both pipes to their ends, then settling. */
  method ReadAndSettle(os: System, out: Pipe, err: Pipe, timeout: real)
    returns (failure: Option<Reason>, observations: seq<string>)
    requires Unbounded(os.clock) && out != err
    requires out.Valid() && out.InStep() && err.Valid() && err.InStep()
    modifies os`ticks, os`interrupted, os`log, out, err
    ensures out.Valid() && err.Valid() && old(os.log) <= os.log
    ensures Explained(failure, out, err)
    ensures failure.Some? ==> failure.value != CleanupError
    ensures os.log == old(os.log) ==> failure.Some?
    ensures os.log != old(os.log) ==> Settled(failure, observations, os.log, |old(os.log)|)
  {
    failure := Drain(os, out, err, timeout);
    observations := [];
    if failure.None? {
      failure, observations := Settle(os);
    }
  }

  /** The finalisation and the answer. */
  method FinalizeAndAnswer(os: System, out: Pipe, err: Pipe, failure: Option<Reason>,
                           observations: seq<string>, budget: real)
    returns (r: Result<ChildResult, ChildFailure>)
    requires Unbounded(os.clock) && budget > 0.0 && (failure.Some? ==> failure.value != CleanupError)
    modifies os
    ensures old(os.log) <= os.log
    ensures r.Ok? ==>
              && failure.None? && r.value.stdout == out.captured && r.value.stderr == err.captured
              && r.value.cleanupEvents == []
              && EndsReaped(os.log) && !os.selectorOpen
              && out.handle !in os.open && err.handle !in os.open
    ensures r.Err? ==> Validated(r.error.snapshot) == r.error.snapshot
    ensures r.Err? ==> r.error.reason == if failure.Some? then failure.value else CleanupError
    ensures r.Err? && failure.None? ==> !r.error.cleanupOk
    ensures r.Err? && !r.error.cleanupOk ==> forall e :: e in observations ==> e in r.error.cleanupEvents
    ensures |os.log| > |old(os.log)| && os.log[|old(os.log)|].Polled?
    ensures GoneAt(os.log, |old(os.log)|) && !os.closeTrouble && !os.interrupted && EndedInTime(os, budget) ==>
              (r.Ok? <==> failure.None?) || (r.Err? && r.error.snapshot == Unavailable())
  {
    hide EndsReaped, Validated, Unavailable;
    var snapshot := new Snapshot();
    var finalizer := new Finalizer(os, snapshot, observations);
    var handles := [out.handle, err.handle];
    var done := finalizer.Finalize(budget, true, handles, handles);
    AnyVerdict(done);
    var cleanupOk := done == Some(true);
    if done.None? {
      finalizer.NoteFailure();
    }
    var reason := failure;
    if !cleanupOk && reason.None? {
      reason := Some(CleanupError);
    }
    if reason.Some? {
      ConsistentIsPassedOn(snapshot);
      return Err(ChildFailure(reason.value, cleanupOk, finalizer.events, snapshot.ToDocument()));
    }
    assert out.handle in handles && err.handle in handles;
    return Ok(ChildResult(out.captured, err.captured, finalizer.events));
  }

  /**
   * One owned child from start to answer. An answer means both complete streams, a reaped child,
   * an absent group, closed pipes and selector, in time and without a single cleanup event; a
   * failure carries a diagnosis that its reader will pass on unchanged.
   */
  method RunChild(os: System, out: Pipe, err: Pipe, timeout: real, budget: real)
    returns (r: Result<ChildResult, ChildFailure>)
    requires Unbounded(os.clock) && out != err && budget > 0.0
    requires out.Valid() && out.InStep() && err.Valid() && err.InStep()
    modifies os, out, err
    ensures out.Valid() && err.Valid()
    ensures r.Ok? ==>
              && r.value.stdout == out.data && |out.data| <= out.limit
              && r.value.stderr == err.data && |err.data| <= err.limit
              && r.value.cleanupEvents == []
              && EndsReaped(os.log) && !os.selectorOpen
              && out.handle !in os.open && err.handle !in os.open
    ensures r.Err? ==> Validated(r.error.snapshot) == r.error.snapshot
    ensures r.Err? && r.error.reason == StdoutOverflow <==> out.delivered == out.limit + 1
    ensures r.Err? && r.error.reason == StderrOverflow <==> err.delivered == err.limit + 1
    ensures r.Err? && r.error.reason == ReadError <==> out.broken || err.broken
    ensures r.Err? && r.error.reason == StdoutOverflow ==> |out.data| > out.limit
    ensures r.Err? && r.error.reason == StderrOverflow ==> |err.data| > err.limit
    ensures old(os.log) <= os.log
    ensures !out.registered && !err.registered && AllWell(os, |old(os.log)|) ==>
              r.Ok? || !r.error.cleanupOk
    ensures !out.registered && !err.registered && AllWell(os, |old(os.log)|) && GoneAt(os.log, |old(os.log)| + 2)
            && !os.closeTrouble && !os.interrupted && EndedInTime(os, budget) ==>
              r.Ok? || r.error.snapshot == Unavailable()
  {
    hide EndsReaped, GoneAt, Validated, Unavailable, Unbounded;
    var failure, observations := ReadAndSettle(os, out, err, timeout);
    r := FinalizeAndAnswer(os, out, err, failure, observations, budget);
  }
}
