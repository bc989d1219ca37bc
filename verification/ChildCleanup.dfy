/**
 * Stopping an owned process group against an adversarial system: every poll, probe,
 * signal, close and clock reading may answer anything or fail, and the whole may be
 * interrupted between any two steps.
 */
module ChildCleanup {
  import opened Common
  import opened CleanupSnapshot

  datatype Signal = Term | Kill

  datatype PollResult = Exited | Alive | PollRaised

  /** Whether the group exists: absent, present or denied, uncertain. */
  type GroupResult = Option<bool>

  /** What became of a signal; a refusal by permission is only an observation. */
  datatype Sent = Delivered | Gone | Denied | SendFailed(typeName: string, errnoName: string)

  /** How waiting for the child to end ended. */
  datatype WaitResult = Finished | WaitTimedOut | WaitInterrupted | WaitFailed

  /** What was done to the child and its group; a signal with the number of clock readings before it. */
  datatype Event =
    | Waited(wait: WaitResult)
    | Polled(poll: PollResult)
    | Probed(group: GroupResult)
    | Signalled(signal: Signal, sent: Sent, ticks: nat)

  /** The n-th reading of the monotonic clock; a reading may fail. */
  type Clock = nat -> Option<real>

  /** From reading `n` on, every successful reading is at or past `t`. */
  ghost predicate Passes(clock: Clock, t: real, n: nat) {
    forall k: nat :: k >= n ==> clock(k).None? || clock(k).value >= t
  }

  ghost predicate EventuallyPasses(clock: Clock, t: real) {
    exists n: nat :: Passes(clock, t, n)
  }

  /** Time goes on: the clock passes every instant for good. */
  ghost predicate Unbounded(clock: Clock) {
    forall t: real :: EventuallyPasses(clock, t)
  }

  function Signals(log: seq<Event>): seq<Signal> {
    if log == [] then []
    else Signals(Init(log)) + if Last(log).Signalled? then [Last(log).signal] else []
  }

  /** The last thing seen is a reaped child and, after it, an absent group. */
  predicate EndsReaped(log: seq<Event>) {
    |log| >= 2 && log[|log| - 2] == Polled(Exited) && log[|log| - 1] == Probed(Some(false))
  }

  /** The two looks from place `n` on see a reaped child and an absent group. */
  predicate GoneAt(log: seq<Event>, n: nat) {
    |log| >= n + 2 && log[n] == Polled(Exited) && log[n + 1] == Probed(Some(false))
  }

  /** The time left at a clock reading; none when it failed. */
  function Left(reading: Option<real>, deadline: real): real {
    if reading.Some? && deadline - reading.value > 0.0 then deadline - reading.value else 0.0
  }

  /** Some reading from `low` on and before `high` failed or left no time. */
  ghost predicate TimeUp(clock: Clock, deadline: real, low: nat, high: nat) {
    exists k: nat :: low <= k < high && Left(clock(k), deadline) <= 0.0
  }

  lemma TimeUpWider(clock: Clock, deadline: real, low: nat, high: nat, first: nat, last: nat)
    requires first <= low && high <= last && TimeUp(clock, deadline, low, high)
    ensures TimeUp(clock, deadline, first, last)
  {
  }

  /** TERM did not go through. */
  predicate NotSent(sent: Sent) {
    sent.Denied? || sent.SendFailed?
  }

  /** KILL is due: TERM failed, or at most half is left of the time there was after it. */
  predicate Due(clock: Clock, deadline: real, term: Event, kill: Event)
    requires term.Signalled? && kill.Signalled?
  {
    NotSent(term.sent) ||
    (kill.ticks > 0 && Left(clock(kill.ticks - 1), deadline) <= Left(clock(term.ticks), deadline) * 0.5)
  }

  /** From place `from` on, the only signals are KILL, when asked for or with at most `killAt` left. */
  ghost predicate OnlyDue(log: seq<Event>, from: nat, clock: Clock, deadline: real, killNow: bool, killAt: real) {
    forall q :: from <= q < |log| && log[q].Signalled? ==>
      && log[q].signal == Kill
      && (killNow || (log[q].ticks > 0 && Left(clock(log[q].ticks - 1), deadline) <= killAt))
  }

  /** Two looks add no signal. */
  lemma LooksAddNone(log: seq<Event>, later: seq<Event>, from: nat, clock: Clock, deadline: real,
                     killNow: bool, killAt: real)
    requires log <= later && |later| == |log| + 2 && later[|log|].Polled? && later[|log| + 1].Probed?
    requires OnlyDue(log, from, clock, deadline, killNow, killAt)
    ensures OnlyDue(later, from, clock, deadline, killNow, killAt)
  {
  }

  lemma KillIsDue(log: seq<Event>, sent: Sent, ticks: nat, from: nat, clock: Clock, deadline: real,
                  killNow: bool, killAt: real)
    requires killNow || (ticks > 0 && Left(clock(ticks - 1), deadline) <= killAt)
    requires OnlyDue(log, from, clock, deadline, killNow, killAt)
    ensures OnlyDue(log + [Signalled(Kill, sent, ticks)], from, clock, deadline, killNow, killAt)
  {
  }

  lemma NoneYet(log: seq<Event>, clock: Clock, deadline: real, killNow: bool, killAt: real)
    ensures OnlyDue(log, |log|, clock, deadline, killNow, killAt)
  {
  }

  /** After TERM at place `n`, half of the time left then or a TERM that failed make KILL due. */
  lemma DueAfterTerm(log: seq<Event>, n: nat, clock: Clock, deadline: real)
    requires n < |log| && log[n].Signalled?
    requires OnlyDue(log, n + 1, clock, deadline, NotSent(log[n].sent),
                     if NotSent(log[n].sent) then 0.0 else Left(clock(log[n].ticks), deadline) * 0.5)
    ensures forall q :: n < q < |log| && log[q].Signalled? ==>
              log[q].signal == Kill && Due(clock, deadline, log[n], log[q])
  {
  }

  function PollSeenOf(r: PollResult): PollSeen {
    match r
    case Exited => ReturncodeObserved
    case Alive => NoReturncodeObserved
    case PollRaised => PollFailed
  }

  function GroupSeenOf(g: GroupResult): GroupSeen {
    if g.None? then GroupUnknown else if g.value then PresentOrDenied else AbsentObserved
  }

  /** The owned child, its group, the pipes, the selector and the clock. */
  class System {
    const clock: Clock
    var ticks: nat
    var log: seq<Event>
    var open: set<int>
    var selectorOpen: bool
    var closeTrouble: bool
    var interrupted: bool

    constructor (clock: Clock, open: set<int>)
      ensures this.clock == clock && this.open == open && ticks == 0 && log == [] && selectorOpen
      ensures !closeTrouble && !interrupted
    {
      this.clock, this.open := clock, open;
      ticks, log, selectorOpen := 0, [], true;
      closeTrouble, interrupted := false, false;
    }

    /** An interruption may come in at any step. */
    method Interrupts() returns (now: bool)
      modifies this`interrupted
      ensures interrupted == (old(interrupted) || now)
    {
      now := *;
      interrupted := interrupted || now;
    }

    method Wait() returns (w: WaitResult)
      modifies this`log
      ensures log == old(log) + [Waited(w)]
    {
      w := *;
      log := log + [Waited(w)];
    }

    method Now() returns (t: Option<real>)
      modifies this`ticks
      ensures ticks == old(ticks) + 1 && t == clock(old(ticks))
    {
      t := clock(ticks);
      ticks := ticks + 1;
    }

    method Poll() returns (r: PollResult)
      modifies this`log
      ensures log == old(log) + [Polled(r)]
    {
      r := *;
      log := log + [Polled(r)];
    }

    method Probe() returns (g: GroupResult)
      modifies this`log
      ensures log == old(log) + [Probed(g)]
    {
      g := *;
      log := log + [Probed(g)];
    }

    method Send(s: Signal) returns (sent: Sent)
      modifies this`log
      ensures log == old(log) + [Signalled(s, sent, ticks)]
    {
      sent := *;
      log := log + [Signalled(s, sent, ticks)];
    }

    /** Closing a pipe may work, fail, or leave it open; whether it is closed may be unknowable. */
    method Close(h: int) returns (closed: Option<bool>)
      modifies this`open, this`closeTrouble
      ensures open <= old(open)
      ensures closed == Some(true) ==> h !in open
      ensures closeTrouble == (old(closeTrouble) || closed != Some(true))
    {
      var works: bool := *;
      if works {
        open := open - {h};
      }
      closed := if h !in open then Some(true) else Some(false);
      var raised: bool := *;
      if raised {
        closed := None;
      }
      closeTrouble := closeTrouble || closed != Some(true);
    }

    method CloseSelector() returns (ok: bool)
      modifies this`selectorOpen, this`closeTrouble
      ensures ok ==> !selectorOpen
      ensures selectorOpen ==> old(selectorOpen)
      ensures closeTrouble == (old(closeTrouble) || !ok)
    {
      ok := *;
      if ok {
        selectorOpen := false;
      }
      closeTrouble := closeTrouble || !ok;
    }
  }

  function Noted(events: seq<string>, event: string): (r: seq<string>)
    ensures r != [] && events <= r && forall e :: e in r <==> e == event || e in events
  {
    if event in events then events else events + [event]
  }

  /** The last poll and the last probe in a log. */
  function LastPolled(log: seq<Event>): Option<PollResult> {
    if log == [] then None else if Last(log).Polled? then Some(Last(log).poll) else LastPolled(Init(log))
  }

  function LastProbed(log: seq<Event>): Option<GroupResult> {
    if log == [] then None else if Last(log).Probed? then Some(Last(log).group) else LastProbed(Init(log))
  }

  /** What a diagnosis may say after a poll and after a probe. */
  predicate Shows(poll: PollSeen, group: GroupSeen, p: PollResult, g: GroupResult) {
    && (poll == ReturncodeObserved <==> p == Exited) && (poll == NoReturncodeObserved <==> p == Alive)
    && (poll == PollFailed <==> p == PollRaised)
    && (group == AbsentObserved <==> g == Some(false)) && (group == PresentOrDenied <==> g == Some(true))
    && (group == GroupUnknown <==> g == None)
  }

  lemma SignalIsNoLook(log: seq<Event>, e: Event)
    requires e.Signalled?
    ensures LastPolled(log + [e]) == LastPolled(log) && LastProbed(log + [e]) == LastProbed(log)
  {
    assert Init(log + [e]) == log;
  }

  lemma TwoLooks(log: seq<Event>, p: PollResult, g: GroupResult)
    ensures LastPolled(log + [Polled(p)] + [Probed(g)]) == Some(p)
    ensures LastProbed(log + [Polled(p)] + [Probed(g)]) == Some(g)
  {
    var one := log + [Polled(p)];
    assert Init(one + [Probed(g)]) == one && Init(one) == log;
  }

  /** How one turn of the watch ends. */
  datatype Turn = SeenGone | CutOff | NoTimeLeft | Again

  class Finalizer {
    const os: System
    const snapshot: Snapshot
    var events: seq<string>
    var observations: seq<string>

    constructor (os: System, snapshot: Snapshot, observations: seq<string>)
      ensures this.os == os && this.snapshot == snapshot && events == [] && this.observations == observations
    {
      this.os, this.snapshot, this.events, this.observations := os, snapshot, [], observations;
    }

    /** The diagnosis shows what was last seen, or nothing, unless capturing it failed. */
    ghost predicate Truthful()
      reads os, snapshot
    {
      || snapshot.captureFailed
      || (snapshot.poll == NoPoll && snapshot.group == NoGroup)
      || (LastPolled(os.log).Some? && LastProbed(os.log).Some?
          && Shows(snapshot.poll, snapshot.group, LastPolled(os.log).value, LastProbed(os.log).value))
    }

    /** Time left until the deadline; none when the clock cannot be read. */
    method Remaining(deadline: real) returns (left: real)
      modifies this`events, os`ticks
      ensures old(events) <= events
      ensures os.ticks == old(os.ticks) + 1 && left == Left(os.clock(old(os.ticks)), deadline)
    {
      var now := os.Now();
      if now.None? {
        events := Noted(events, "cleanup_clock_failed");
        return 0.0;
      }
      return if deadline - now.value > 0.0 then deadline - now.value else 0.0;
    }

    /** One look at the child and then at its group, captured as far as capturing works. */
    method Observe(pollEvent: string, groupEvent: string) returns (reaped: bool)
      modifies this`events, os`log, snapshot
      ensures old(events) <= events
      ensures reaped <==> EndsReaped(os.log)
      ensures |os.log| == |old(os.log)| + 2 && old(os.log) <= os.log
      ensures os.log[|old(os.log)|].Polled? && os.log[|old(os.log)| + 1].Probed?
      ensures reaped <==> GoneAt(os.log, |old(os.log)|)
      ensures reaped ==> events == old(events)
      ensures if os.log[|old(os.log)|].poll == PollRaised || os.log[|old(os.log)| + 1].group.None?
              then events != [] else events == old(events)
      ensures Signals(os.log) == Signals(old(os.log))
      ensures Truthful()
      ensures old(snapshot.Observing()) ==> snapshot.Observing()
      ensures old(snapshot.captureFailed) ==> snapshot.captureFailed
      ensures reaped && !snapshot.captureFailed ==>
                snapshot.poll == ReturncodeObserved && snapshot.group == AbsentObserved
      ensures snapshot.captureFailed || snapshot.phase == old(snapshot.phase)
    {
      hide LastPolled, LastProbed, Signals;
      var poll := os.Poll();
      SignalsSnoc(old(os.log), Polled(poll));
      if poll == PollRaised {
        events := Noted(events, pollEvent);
      }
      ghost var between := os.log;
      var group := os.Probe();
      SignalsSnoc(between, Probed(group));
      TwoLooks(old(os.log), poll, group);
      snapshot.CaptureChecks(PollSeenOf(poll), GroupSeenOf(group));
      if group.None? {
        events := Noted(events, groupEvent);
      }
      return poll == Exited && group == Some(false);
    }

    method SendTerm() returns (failed: bool)
      modifies this`events, this`observations, os`log
      ensures old(events) <= events && old(observations) <= observations
      ensures exists sent :: os.log == old(os.log) + [Signalled(Term, sent, os.ticks)] && (failed <==> NotSent(sent))
      ensures if os.log[|old(os.log)|].sent.SendFailed? then "term_signal_failed" in events else events == old(events)
      ensures if os.log[|old(os.log)|].sent.Denied? then "term_signal_failed" in observations
              else observations == old(observations)
      ensures old(Truthful()) ==> Truthful()
    {
      var sent := os.Send(Term);
      SignalIsNoLook(old(os.log), os.log[|old(os.log)|]);
      match sent {
        case Delivered => failed := false;
        case Gone => failed := false;
        case Denied =>
          observations := Noted(Noted(Noted(observations, "term_signal_failed"),
                                      "term_signal_type_permission_error_failed"), "term_signal_errno_eperm_failed");
          failed := true;
        case SendFailed(typeName, errnoName) =>
          events := Noted(Noted(Noted(events, "term_signal_failed"),
                                "term_signal_type_" + typeName + "_failed"),
                          "term_signal_errno_" + errnoName + "_failed");
          failed := true;
      }
    }

    method SendKill(event: string)
      modifies this`events, this`observations, os`log
      ensures old(events) <= events && old(observations) <= observations
      ensures exists sent :: os.log == old(os.log) + [Signalled(Kill, sent, os.ticks)]
      ensures if os.log[|old(os.log)|].sent.SendFailed? then event in events else events == old(events)
      ensures if os.log[|old(os.log)|].sent.Denied? then event in observations else observations == old(observations)
      ensures old(Truthful()) ==> Truthful()
    {
      var sent := os.Send(Kill);
      SignalIsNoLook(old(os.log), os.log[|old(os.log)|]);
      if sent.Denied? {
        observations := Noted(observations, event);
      } else if sent.SendFailed? {
        events := Noted(events, event);
      }
    }

    /** Waiting a little; both waits may fail or be interrupted. */
    method Pause(deadline: real, reapEvent: string, waitEvent: string)
      modifies this`events, os`ticks
      ensures old(events) <= events
      ensures os.ticks >= old(os.ticks)
    {
      var reaping: int := *;
      if reaping == 0 {
        return;
      }
      if reaping == 1 {
        events := Noted(events, reapEvent);
      }
      var left := Remaining(deadline);
      var waiting: int := *;
      if waiting == 1 {
        events := Noted(events, waitEvent);
      }
    }

    /**
     * TERM first, KILL at half time or at once if TERM failed, until the child is reaped and
     * its group gone or the deadline passes. No result means it was interrupted.
     */
    method CleanupGroup(deadline: real) returns (done: Option<bool>)
      requires Unbounded(os.clock)
      modifies this, os`log, os`ticks, os`interrupted, snapshot
      ensures old(events) <= events && old(observations) <= observations
      ensures os.ticks >= old(os.ticks)
      ensures old(os.log) <= os.log && |os.log| >= |old(os.log)| + 2 && os.log[|old(os.log)|].Polled?
      ensures GoneAt(os.log, |old(os.log)|) ==>
                && done == Some(true) && |os.log| == |old(os.log)| + 2
                && events == old(events) && os.ticks == old(os.ticks)
      ensures !GoneAt(os.log, |old(os.log)|) && done.Some? ==> |os.log| > |old(os.log)| + 2
      ensures |os.log| > |old(os.log)| + 2 ==>
                && os.log[|old(os.log)| + 2].Signalled? && os.log[|old(os.log)| + 2].signal == Term
                && forall q :: |old(os.log)| + 2 < q < |os.log| && os.log[q].Signalled? ==>
                     os.log[q].signal == Kill && Due(os.clock, deadline, os.log[|old(os.log)| + 2], os.log[q])
      ensures done.None? ==> os.interrupted
      ensures Truthful()
      ensures done == Some(true) ==> EndsReaped(os.log)
      ensures done == Some(false) ==> !EndsReaped(os.log) && TimeUp(os.clock, deadline, old(os.ticks), os.ticks)
      ensures done == Some(false) ==> Signals(os.log) == Signals(old(os.log)) + [Term, Kill]
      ensures || Signals(os.log) == Signals(old(os.log))
              || Signals(os.log) == Signals(old(os.log)) + [Term]
              || Signals(os.log) == Signals(old(os.log)) + [Term, Kill]
      ensures old(snapshot.Observing()) ==> snapshot.Observing()
      ensures old(snapshot.captureFailed) ==> snapshot.captureFailed
      ensures done == Some(true) && !snapshot.captureFailed ==>
                snapshot.phase == PhaseSeen.CleanupGroup
                && snapshot.poll == ReturncodeObserved && snapshot.group == AbsentObserved
    {
      hide Signals, EndsReaped, Unbounded, OnlyDue, Due, LastPolled, LastProbed, Shows, TimeUp;
      ghost var sent := Signals(os.log);
      snapshot.CapturePhase(PhaseSeen.CleanupGroup);
      var reaped := Observe("process_poll_failed", "group_check_failed");
      if reaped {
        return Some(true);
      }
      var interrupted := os.Interrupts();
      if interrupted {
        return None;
      }
      ghost var before := os.log;
      var termFailed := SendTerm();
      SignalsSnoc(before, os.log[|before|]);
      var remaining := Remaining(deadline);
      ghost var begun := os.ticks;
      done := WatchGroup(deadline, termFailed, if termFailed then 0.0 else remaining * 0.5);
      DueAfterTerm(os.log, |before|, os.clock, deadline);
      if done == Some(false) {
        TimeUpWider(os.clock, deadline, begun, os.ticks, old(os.ticks), os.ticks);
      }
    }

    /** The watch after TERM: one KILL when its time has come, at the latest when no time is left. */
    method WatchGroup(deadline: real, killNow: bool, killAt: real) returns (done: Option<bool>)
      requires Unbounded(os.clock) && killAt >= 0.0
      modifies this, os`log, os`ticks, os`interrupted, snapshot
      ensures old(events) <= events && old(observations) <= observations
      ensures os.ticks >= old(os.ticks)
      ensures old(os.log) <= os.log
      ensures OnlyDue(os.log, |old(os.log)|, os.clock, deadline, killNow, killAt)
      ensures done.None? ==> os.interrupted
      ensures old(Truthful()) ==> Truthful()
      ensures done == Some(true) ==> EndsReaped(os.log)
      ensures done == Some(false) ==> !EndsReaped(os.log) && TimeUp(os.clock, deadline, old(os.ticks), os.ticks)
      ensures done == Some(false) ==> Signals(os.log) == Signals(old(os.log)) + [Kill]
      ensures Signals(os.log) == Signals(old(os.log)) || Signals(os.log) == Signals(old(os.log)) + [Kill]
      ensures old(snapshot.Observing()) ==> snapshot.Observing()
      ensures old(snapshot.captureFailed) ==> snapshot.captureFailed
      ensures snapshot.captureFailed || snapshot.phase == old(snapshot.phase)
      ensures done == Some(true) && !snapshot.captureFailed ==>
                snapshot.poll == ReturncodeObserved && snapshot.group == AbsentObserved
    {
      hide Signals, EndsReaped, OnlyDue, LastPolled, LastProbed, Shows, TimeUp;
      NoneYet(os.log, os.clock, deadline, killNow, killAt);
      ghost var sent := Signals(os.log);
      var killSent := false;
      assert EventuallyPasses(os.clock, deadline);
      ghost var last: nat :| Passes(os.clock, deadline, last);
      while true
        invariant os.ticks >= old(os.ticks) && old(os.log) <= os.log
        invariant old(events) <= events && old(observations) <= observations
        invariant OnlyDue(os.log, |old(os.log)|, os.clock, deadline, killNow, killAt)
        invariant Signals(os.log) == if killSent then sent + [Kill] else sent
        invariant old(snapshot.Observing()) ==> snapshot.Observing()
        invariant old(snapshot.captureFailed) ==> snapshot.captureFailed
        invariant old(Truthful()) ==> Truthful()
        invariant snapshot.captureFailed || snapshot.phase == old(snapshot.phase)
        decreases last - os.ticks
      {
        ghost var begun := os.ticks;
        var turn: Turn;
        turn, killSent := WatchTurn(deadline, killNow, killAt, killSent, |old(os.log)|);
        match turn {
          case SeenGone => return Some(true);
          case CutOff => return None;
          case NoTimeLeft =>
            TimeUpWider(os.clock, deadline, begun, os.ticks, old(os.ticks), os.ticks);
            break;
          case Again =>
        }
      }
      ghost var seen := os.log;
      var reaped := Observe("process_poll_failed", "group_check_failed");
      LooksAddNone(seen, os.log, |old(os.log)|, os.clock, deadline, killNow, killAt);
      return Some(reaped);
    }

    /** One turn of the watch: a look, KILL if it is due, and a pause if there is time left. */
    method WatchTurn(deadline: real, killNow: bool, killAt: real, killSent: bool, ghost from: nat)
      returns (turn: Turn, sent: bool)
      requires killAt >= 0.0 && OnlyDue(os.log, from, os.clock, deadline, killNow, killAt)
      modifies this, os`log, os`ticks, os`interrupted, snapshot
      ensures old(events) <= events && old(observations) <= observations
      ensures old(os.log) <= os.log && os.ticks >= old(os.ticks)
      ensures OnlyDue(os.log, from, os.clock, deadline, killNow, killAt)
      ensures Signals(os.log) == Signals(old(os.log)) + if sent && !killSent then [Kill] else []
      ensures killSent ==> sent
      ensures Truthful()
      ensures old(snapshot.Observing()) ==> snapshot.Observing()
      ensures old(snapshot.captureFailed) ==> snapshot.captureFailed
      ensures snapshot.captureFailed || snapshot.phase == old(snapshot.phase)
      ensures turn.SeenGone? ==>
                && EndsReaped(os.log)
                && (snapshot.captureFailed || (snapshot.poll == ReturncodeObserved && snapshot.group == AbsentObserved))
      ensures !turn.SeenGone? ==> !GoneAt(os.log, |old(os.log)|)
      ensures turn.CutOff? ==> os.interrupted
      ensures turn.NoTimeLeft? ==> sent && TimeUp(os.clock, deadline, old(os.ticks), os.ticks)
      ensures turn.Again? ==> os.ticks > old(os.ticks) && Left(os.clock(old(os.ticks)), deadline) > 0.0
      ensures turn.Again? && Left(os.clock(old(os.ticks)), deadline) <= killAt ==> sent
      ensures turn.Again? && killNow ==> sent
    {
      hide Signals, EndsReaped, OnlyDue, LastPolled, LastProbed, Shows;
      sent := killSent;
      ghost var seen := os.log;
      var reaped := Observe("process_poll_failed", "group_check_failed");
      LooksAddNone(seen, os.log, from, os.clock, deadline, killNow, killAt);
      if reaped {
        return SeenGone, sent;
      }
      var interrupted := os.Interrupts();
      if interrupted {
        return CutOff, sent;
      }
      var remaining := Remaining(deadline);
      if !sent && (killNow || remaining <= 0.0 || remaining <= killAt) {
        sent := true;
        ghost var before := os.log;
        SendKill("kill_signal_failed");
        SignalsSnoc(before, os.log[|before|]);
        KillIsDue(before, os.log[|before|].sent, os.ticks, from, os.clock, deadline, killNow, killAt);
      }
      if remaining <= 0.0 {
        return NoTimeLeft, sent;
      }
      Pause(deadline, "process_reap_failed", "cleanup_wait_failed");
      turn := Again;
    }

    /** An independent KILL, then the same watch under the same deadline. */
    method KillReapFallback(deadline: real) returns (done: Option<bool>)
      requires Unbounded(os.clock)
      modifies this, os`log, os`ticks, os`interrupted, snapshot
      ensures old(events) <= events && old(observations) <= observations
      ensures os.ticks >= old(os.ticks)
      ensures old(os.log) <= os.log
      ensures done.None? ==> os.interrupted
      ensures Truthful()
      ensures done == Some(true) ==> EndsReaped(os.log)
      ensures done == Some(false) ==> !EndsReaped(os.log) && TimeUp(os.clock, deadline, old(os.ticks), os.ticks)
      ensures done.Some? ==> Signals(os.log) == Signals(old(os.log)) + [Kill]
      ensures Signals(os.log) == Signals(old(os.log)) || Signals(os.log) == Signals(old(os.log)) + [Kill]
      ensures old(snapshot.Observing()) ==> snapshot.Observing()
      ensures old(snapshot.captureFailed) ==> snapshot.captureFailed
      ensures done == Some(true) && !snapshot.captureFailed ==>
                snapshot.phase == PhaseSeen.KillReapFallback
                && snapshot.poll == ReturncodeObserved && snapshot.group == AbsentObserved
    {
      hide Signals, EndsReaped, LastPolled, LastProbed, Shows, GoneAt, Noted, TimeUp;
      assert EventuallyPasses(os.clock, deadline);
      ghost var sent := Signals(os.log);
      snapshot.CapturePhase(PhaseSeen.KillReapFallback);
      var interrupted := os.Interrupts();
      if interrupted {
        return None;
      }
      ghost var before := os.log;
      SendKill("fallback_kill_failed");
      SignalsSnoc(before, os.log[|before|]);
      ghost var last: nat :| Passes(os.clock, deadline, last);
      while true
        invariant os.ticks >= old(os.ticks) && old(events) <= events && old(observations) <= observations
        invariant old(os.log) <= os.log
        invariant Signals(os.log) == sent + [Kill]
        invariant old(snapshot.Observing()) ==> snapshot.Observing()
        invariant old(snapshot.captureFailed) ==> snapshot.captureFailed
        invariant Truthful()
        invariant snapshot.captureFailed || snapshot.phase == PhaseSeen.KillReapFallback
        decreases last - os.ticks
      {
        ghost var begun := os.ticks;
        var turn := FallbackTurn(deadline);
        match turn {
          case SeenGone => return Some(true);
          case CutOff => return None;
          case NoTimeLeft =>
            TimeUpWider(os.clock, deadline, begun, os.ticks, old(os.ticks), os.ticks);
            return Some(false);
          case Again =>
        }
      }
    }

    /** One turn of the fallback: a look, and a pause if there is time left. */
    method FallbackTurn(deadline: real) returns (turn: Turn)
      modifies this, os`log, os`ticks, os`interrupted, snapshot
      ensures old(events) <= events && old(observations) <= observations
      ensures old(os.log) <= os.log && os.ticks >= old(os.ticks)
      ensures Signals(os.log) == Signals(old(os.log))
      ensures Truthful()
      ensures old(snapshot.Observing()) ==> snapshot.Observing()
      ensures old(snapshot.captureFailed) ==> snapshot.captureFailed
      ensures snapshot.captureFailed || snapshot.phase == old(snapshot.phase)
      ensures turn.SeenGone? <==> EndsReaped(os.log)
      ensures turn.SeenGone? ==>
                snapshot.captureFailed || (snapshot.poll == ReturncodeObserved && snapshot.group == AbsentObserved)
      ensures turn.CutOff? ==> os.interrupted
      ensures turn.NoTimeLeft? ==> TimeUp(os.clock, deadline, old(os.ticks), os.ticks)
      ensures turn.Again? ==> os.ticks > old(os.ticks) && Left(os.clock(old(os.ticks)), deadline) > 0.0
    {
      hide Signals, EndsReaped, LastPolled, LastProbed, Shows, GoneAt, Noted;
      var reaped := Observe("fallback_poll_failed", "fallback_group_check_failed");
      if reaped {
        return SeenGone;
      }
      var interrupted := os.Interrupts();
      if interrupted {
        return CutOff;
      }
      var remaining := Remaining(deadline);
      if remaining <= 0.0 {
        return NoTimeLeft;
      }
      Pause(deadline, "fallback_reap_failed", "fallback_wait_failed");
      turn := Again;
    }

    /** Closes every pipe; success means that every one is known to be closed. */
    method ClosePipes(pipes: seq<int>) returns (ok: bool)
      modifies this`events, os`open, os`closeTrouble
      ensures old(events) <= events
      ensures old(os.closeTrouble) ==> os.closeTrouble
      ensures if ok then events == old(events) && os.closeTrouble == old(os.closeTrouble)
              else events != [] && os.closeTrouble
      ensures os.open <= old(os.open)
      ensures ok ==> forall h :: h in pipes ==> h !in os.open
    {
      ok := true;
      for k := 0 to |pipes|
        invariant os.open <= old(os.open) && old(events) <= events
        invariant old(os.closeTrouble) ==> os.closeTrouble
        invariant if ok then events == old(events) && os.closeTrouble == old(os.closeTrouble)
                  else events != [] && os.closeTrouble
        invariant ok ==> forall j :: 0 <= j < k ==> pipes[j] !in os.open
      {
        var closed := os.Close(pipes[k]);
        if closed.None? {
          ok := false;
          events := Noted(events, "pipe_close_failed");
        } else if !closed.value {
          ok := false;
          events := Noted(events, "pipe_close_unverified");
        }
      }
    }

    /** Nothing has been finalised yet. */
    ghost predicate Unused()
      reads this, snapshot
    {
      events == [] && snapshot.Observing() && snapshot.phase == NoPhase
      && !snapshot.captureFailed && !snapshot.interrupted
    }

    /** The group is stopped, or both attempts to stop it have been made. */
    method StopGroup(deadline: real) returns (ok: bool)
      requires Unbounded(os.clock) && snapshot.Observing()
      modifies this, os`log, os`ticks, os`interrupted, snapshot
      ensures old(events) <= events && old(observations) <= observations
      ensures os.ticks >= old(os.ticks)
      ensures old(os.log) <= os.log && |os.log| >= |old(os.log)| + 2 && os.log[|old(os.log)|].Polled?
      ensures GoneAt(os.log, |old(os.log)|) ==>
                && ok && |os.log| == |old(os.log)| + 2
                && events == old(events) && os.ticks == old(os.ticks)
      ensures ok ==> EndsReaped(os.log)
      ensures !ok ==> events != [] || !EndsReaped(os.log)
      ensures !ok ==> Kill in Signals(os.log) || "fallback_finalize_failed" in events
      ensures !ok ==> TimeUp(os.clock, deadline, old(os.ticks), os.ticks) || "fallback_finalize_failed" in events
      ensures snapshot.Observing() && Truthful()
      ensures ok && !snapshot.captureFailed ==>
                snapshot.phase != NoPhase && snapshot.poll == ReturncodeObserved && snapshot.group == AbsentObserved
    {
      var done := CleanupGroup(deadline);
      if done.None? {
        events := Noted(events, "group_finalize_failed");
      }
      ok := done == Some(true);
      if !ok {
        ghost var begun := os.ticks;
        done := KillReapFallback(deadline);
        if done == Some(false) {
          TimeUpWider(os.clock, deadline, begun, os.ticks, old(os.ticks), os.ticks);
        }
        if done.None? {
          events := Noted(events, "fallback_finalize_failed");
        }
        ok := done == Some(true);
        AnyVerdict(done);
      }
    }

    /** Closes the selector and every pipe. */
    method CloseAll(hasSelector: bool, pipes: seq<int>, streams: seq<int>) returns (selectorOk: bool, streamsOk: bool)
      modifies this`events, os`open, os`selectorOpen, os`closeTrouble
      ensures old(events) <= events
      ensures selectorOk && streamsOk ==> events == old(events)
      ensures !(selectorOk && streamsOk) ==> events != [] && os.closeTrouble
      ensures selectorOk && hasSelector ==> !os.selectorOpen
      ensures streamsOk ==> forall h :: h in pipes || h in streams ==> h !in os.open
    {
      selectorOk := !hasSelector;
      if hasSelector {
        selectorOk := os.CloseSelector();
        if !selectorOk {
          events := Noted(events, "selector_close_failed");
        }
      }
      var pipesOk := ClosePipes(pipes);
      streamsOk := ClosePipes(streams);
      streamsOk := streamsOk && pipesOk;
    }

    /** The last look at the clock; anything but a reading before the deadline is an event. */
    method CheckDeadline(deadline: real) returns (seen: DeadlineSeen)
      modifies this`events, os`ticks
      ensures old(events) <= events && os.ticks == old(os.ticks) + 1
      ensures seen != NoDeadline
      ensures seen == NotExceeded <==> os.clock(old(os.ticks)).Some? && os.clock(old(os.ticks)).value < deadline
      ensures seen == NotExceeded ==> events == old(events)
      ensures seen != NotExceeded ==> events != []
    {
      var now := os.Now();
      seen := NotExceeded;
      if now.None? {
        seen := DeadlineFailed;
        events := Noted(events, "cleanup_clock_failed");
      } else if now.value >= deadline {
        seen := Exceeded;
        events := Noted(events, "cleanup_deadline_exceeded");
      }
    }

    /** Closing everything, and then the clock. */
    method CloseAndLook(deadline: real, hasSelector: bool, pipes: seq<int>, streams: seq<int>)
      returns (selectorOk: bool, streamsOk: bool, seen: DeadlineSeen)
      modifies this`events, os`open, os`selectorOpen, os`closeTrouble, os`ticks
      ensures old(events) <= events && os.ticks == old(os.ticks) + 1
      ensures selectorOk && hasSelector ==> !os.selectorOpen
      ensures streamsOk ==> forall h :: h in pipes || h in streams ==> h !in os.open
      ensures seen == NotExceeded <==> os.clock(old(os.ticks)).Some? && os.clock(old(os.ticks)).value < deadline
      ensures if selectorOk && streamsOk && seen == NotExceeded then events == old(events) else events != []
      ensures !(selectorOk && streamsOk) ==> os.closeTrouble
      ensures seen != NoDeadline
    {
      selectorOk, streamsOk := CloseAll(hasSelector, pipes, streams);
      seen := CheckDeadline(deadline);
    }

    /** The verdict, captured as far as capturing works: all four answers good and not a single event. */
    method Judge(groupOk: bool, selectorOk: bool, streamsOk: bool, seen: DeadlineSeen) returns (done: Option<bool>)
      requires snapshot.Observing() && seen != NoDeadline
      requires groupOk ==> seen == NotExceeded
      requires groupOk && !snapshot.captureFailed ==>
                 snapshot.phase != NoPhase && snapshot.poll == ReturncodeObserved && snapshot.group == AbsentObserved
      modifies this`events, os`interrupted, snapshot
      ensures old(events) <= events
      ensures old(os.interrupted) ==> os.interrupted
      ensures snapshot.Consistent()
      ensures old(Truthful()) ==> Truthful()
      ensures done.Some? ==> snapshot.captureFailed || snapshot.cleanupGate == done
      ensures done == Some(true) ==> groupOk && selectorOk && streamsOk && events == []
      ensures done == Some(false) ==>
                !(groupOk && selectorOk && streamsOk && old(events) == []) || snapshot.interrupted
      ensures done == Some(false) ==> forall e :: e in observations ==> e in events
      ensures done.None? ==> os.interrupted || snapshot.interrupted
      ensures snapshot.interrupted ==> snapshot.captureFailed
    {
      var cleanupOk := groupOk && selectorOk && streamsOk && events == [];
      if !cleanupOk || snapshot.interrupted {
        NoteObservations();
        cleanupOk := false;
      }
      var interrupted := os.Interrupts();
      if interrupted {
        return None;
      }
      snapshot.CaptureGates(groupOk, selectorOk, streamsOk, seen, cleanupOk);
      if snapshot.interrupted {
        NoteObservations();
        return None;
      }
      return Some(cleanupOk);
    }

    /**
     * The whole finalisation. Success is possible only after the child was seen reaped and its
     * group then absent, with everything closed, in time, and without a single event; whatever
     * happens, the captured diagnostics stay consistent. No result means it was interrupted.
     */
    method Finalize(budget: real, hasSelector: bool, pipes: seq<int>, streams: seq<int>) returns (done: Option<bool>)
      requires Unbounded(os.clock) && Unused() && budget > 0.0
      modifies this, os, snapshot
      ensures old(events) <= events && old(observations) <= observations
      ensures snapshot.Consistent() && Truthful()
      ensures done.Some? ==> snapshot.captureFailed || snapshot.cleanupGate == done
      ensures done == Some(true) ==>
                && EndsReaped(os.log)
                && (hasSelector ==> !os.selectorOpen)
                && (forall h :: h in pipes || h in streams ==> h !in os.open)
                && events == []
                && InTime(os.clock, old(os.ticks), os.ticks, budget)
      ensures done == Some(false) ==> events != [] || !EndsReaped(os.log) || snapshot.interrupted
      ensures done == Some(false) ==> forall e :: e in observations ==> e in events
      ensures done.None? ==> os.interrupted || snapshot.interrupted
      ensures snapshot.interrupted ==> snapshot.captureFailed
      ensures old(os.log) <= os.log && |os.log| >= |old(os.log)| + 2 && os.log[|old(os.log)|].Polled?
      ensures GoneAt(os.log, |old(os.log)|) ==> |os.log| == |old(os.log)| + 2
      ensures GoneAt(os.log, |old(os.log)|) && !os.interrupted ==> os.ticks == old(os.ticks) + 2
      ensures GoneAt(os.log, |old(os.log)|) && !os.closeTrouble && !snapshot.interrupted && !os.interrupted ==>
                InTime(os.clock, old(os.ticks), os.ticks, budget) ==> done == Some(true)
    {
      var start := os.Now();
      var deadline := 0.0;
      if start.None? {
        events := Noted(events, "cleanup_clock_failed");
      } else {
        deadline := start.value + budget;
      }
      var groupOk := StopGroup(deadline);
      var interrupted := os.Interrupts();
      if interrupted {
        return None;
      }
      var selectorOk, streamsOk, seen := CloseAndLook(deadline, hasSelector, pipes, streams);
      done := Judge(groupOk && seen == NotExceeded, selectorOk, streamsOk, seen);
      AnyVerdict(done);
    }

    /** A finalisation that was interrupted is itself an event. */
    method NoteFailure()
      modifies this`events
      ensures old(events) <= events && forall e :: e in observations ==> e in events
    {
      events := Noted(events, "finalizer_failed");
      NoteObservations();
    }

    method NoteObservations()
      modifies this`events
      ensures old(events) <= events
      ensures forall e :: e in events <==> e in old(events) || e in observations
    {
      for k := 0 to |observations|
        invariant old(events) <= events
        invariant forall e :: e in events <==> e in old(events) || e in observations[..k]
      {
        events := Noted(events, observations[k]);
      }
    }
  }

  /** The last clock reading lies before the deadline set by the first. */
  ghost predicate InTime(clock: Clock, first: nat, ticks: nat, budget: real) {
    && first < ticks
    && clock(first).Some? && clock(ticks - 1).Some?
    && clock(ticks - 1).value < clock(first).value + budget
  }

  lemma AnyVerdict(done: Option<bool>)
    ensures done.None? || done == Some(true) || done == Some(false)
  {
    match done
    case None =>
    case Some(b) => assert b || !b;
  }

  lemma SignalsSnoc(log: seq<Event>, e: Event)
    ensures Signals(log + [e]) == Signals(log) + if e.Signalled? then [e.signal] else []
  {
    assert Init(log + [e]) == log;
  }
}
