/** Failure diagnostics of a child cleanup: captured by the owner, re-checked by the reader. */
module CleanupSnapshot {
  import opened Common

  datatype PhaseSeen = NoPhase | CleanupGroup | KillReapFallback
  datatype PollSeen = NoPoll | ReturncodeObserved | NoReturncodeObserved | PollFailed
  datatype GroupSeen = NoGroup | AbsentObserved | PresentOrDenied | GroupUnknown
  datatype DeadlineSeen = NoDeadline | NotExceeded | Exceeded | DeadlineFailed

  /** A value of the diagnostic document. */
  datatype Field = Number(n: int) | Text(s: string) | Flag(b: bool) | Nothing | Other

  type Document = map<string, Field>

  function PhaseText(p: PhaseSeen): string {
    match p
    case NoPhase => "not_observed"
    case CleanupGroup => "cleanup_group"
    case KillReapFallback => "kill_reap_fallback"
  }

  function PollText(p: PollSeen): string {
    match p
    case NoPoll => "not_observed"
    case ReturncodeObserved => "returncode_observed"
    case NoReturncodeObserved => "no_returncode_observed"
    case PollFailed => "failed"
  }

  function GroupText(g: GroupSeen): string {
    match g
    case NoGroup => "not_observed"
    case AbsentObserved => "absent_observed"
    case PresentOrDenied => "present_or_denied_observed"
    case GroupUnknown => "unknown"
  }

  function DeadlineText(d: DeadlineSeen): string {
    match d
    case NoDeadline => "not_observed"
    case NotExceeded => "not_exceeded"
    case Exceeded => "exceeded"
    case DeadlineFailed => "failed"
  }

  function Gate(g: Option<bool>): Field {
    if g.None? then Nothing else Flag(g.value)
  }

  /** What a document says was seen. */
  datatype Seen = Seen(
    phase: PhaseSeen, poll: PollSeen, group: GroupSeen, deadline: DeadlineSeen,
    groupGate: Option<bool>, selectorGate: Option<bool>, streamsGate: Option<bool>, cleanupGate: Option<bool>)

  /** What may be said: a complete document leaves nothing out, open gates are backed. */
  predicate Statable(complete: bool, o: Seen) {
    && (complete ==>
          && o.phase != NoPhase && o.poll != NoPoll && o.group != NoGroup && o.deadline != NoDeadline
          && o.groupGate.Some? && o.selectorGate.Some? && o.streamsGate.Some? && o.cleanupGate.Some?)
    && (o.groupGate == Some(true) ==>
          o.poll == ReturncodeObserved && o.group == AbsentObserved && o.deadline == NotExceeded)
    && (o.cleanupGate == Some(true) ==>
          complete && o.groupGate == Some(true) && o.selectorGate == Some(true) && o.streamsGate == Some(true))
  }

  function Describe(availability: string, phase: PhaseSeen, poll: PollSeen, group: GroupSeen, deadline: DeadlineSeen,
                    groupGate: Option<bool>, selectorGate: Option<bool>,
                    streamsGate: Option<bool>, cleanupGate: Option<bool>)
    : Document
  {
    map[
      "schema_version" := Number(1),
      "availability" := Text(availability),
      "last_phase" := Text(PhaseText(phase)),
      "child_poll" := Text(PollText(poll)),
      "group_check" := Text(GroupText(group)),
      "group_gate" := Gate(groupGate),
      "selector_gate" := Gate(selectorGate),
      "streams_gate" := Gate(streamsGate),
      "deadline_check" := Text(DeadlineText(deadline)),
      "cleanup_gate" := Gate(cleanupGate)]
  }

  /** A document that is available. */
  function Stating(complete: bool, o: Seen): Document {
    Describe(if complete then "complete" else "partial", o.phase, o.poll, o.group, o.deadline,
             o.groupGate, o.selectorGate, o.streamsGate, o.cleanupGate)
  }

  function Unavailable(): Document {
    Describe("unavailable", NoPhase, NoPoll, NoGroup, NoDeadline, None, None, None, None)
  }

  /** The owner's record of what it saw; recording may fail or be interrupted part-way. */
  class Snapshot {
    var phase: PhaseSeen
    var poll: PollSeen
    var group: GroupSeen
    var deadline: DeadlineSeen
    var groupGate: Option<bool>
    var selectorGate: Option<bool>
    var streamsGate: Option<bool>
    var cleanupGate: Option<bool>
    var captureFailed: bool
    var interrupted: bool

    constructor ()
      ensures phase == NoPhase && poll == NoPoll && group == NoGroup && deadline == NoDeadline
      ensures groupGate == selectorGate == streamsGate == cleanupGate == None
      ensures !captureFailed && !interrupted
    {
      phase, poll, group, deadline := NoPhase, NoPoll, NoGroup, NoDeadline;
      groupGate, selectorGate, streamsGate, cleanupGate := None, None, None, None;
      captureFailed, interrupted := false, false;
    }

    /** Nothing has been said about the gates yet, and an interrupted capture is a failed one. */
    ghost predicate Observing()
      reads this
    {
      && groupGate.None? && selectorGate.None? && streamsGate.None? && cleanupGate.None? && deadline == NoDeadline
      && (interrupted ==> captureFailed)
    }

    /** Unless a capture failed, an open gate is backed by what was seen. */
    ghost predicate Consistent()
      reads this
    {
      captureFailed ||
      (&& (groupGate == Some(true) ==> poll == ReturncodeObserved && group == AbsentObserved && deadline == NotExceeded)
       && (cleanupGate == Some(true) ==>
             && phase != NoPhase && groupGate == Some(true) && selectorGate == Some(true) && streamsGate == Some(true)))
    }

    /** A failed capture says so, and may have been an interruption. */
    method FailOnly()
      modifies this`captureFailed, this`interrupted
      ensures captureFailed
      ensures old(interrupted) ==> interrupted
    {
      captureFailed := true;
      var interruption: bool := *;
      interrupted := interrupted || interruption;
    }

    /** A capture that fails may have recorded a part of its values. */
    method CapturePhase(p: PhaseSeen)
      modifies this
      ensures old(captureFailed) ==> captureFailed
      ensures old(interrupted) ==> interrupted
      ensures old(Observing()) ==> Observing()
      ensures captureFailed || (phase == p && poll == NoPoll && group == NoGroup && interrupted == old(interrupted))
    {
      var reached: nat := *;
      if reached > 0 { phase := p; }
      if reached > 1 { poll := NoPoll; }
      if reached > 2 { group := NoGroup; }
      if reached <= 3 {
        FailOnly();
      }
    }

    method CaptureChecks(p: PollSeen, g: GroupSeen)
      modifies this
      ensures old(captureFailed) ==> captureFailed
      ensures old(interrupted) ==> interrupted
      ensures old(Observing()) ==> Observing()
      ensures captureFailed || (phase == old(phase) && poll == p && group == g && interrupted == old(interrupted))
    {
      var reached: nat := *;
      if reached > 0 { poll := p; }
      if reached > 1 { group := g; }
      if reached <= 2 {
        FailOnly();
      }
    }

    method CaptureGates(group: bool, selector: bool, streams: bool, seen: DeadlineSeen, cleanup: bool)
      modifies this
      ensures old(captureFailed) ==> captureFailed
      ensures old(interrupted) ==> interrupted
      ensures captureFailed ||
              (&& phase == old(phase) && poll == old(poll) && this.group == old(this.group)
               && interrupted == old(interrupted)
               && groupGate == Some(group) && selectorGate == Some(selector) && streamsGate == Some(streams)
               && deadline == seen && cleanupGate == Some(cleanup))
    {
      var reached: nat := *;
      if reached > 0 { groupGate := Some(group); }
      if reached > 1 { selectorGate := Some(selector); }
      if reached > 2 { streamsGate := Some(streams); }
      if reached > 3 { deadline := seen; }
      if reached > 4 { cleanupGate := Some(cleanup); }
      if reached <= 5 {
        FailOnly();
      }
    }

    /** Every observation and every gate is there. */
    predicate Complete()
      reads this
    {
      poll != NoPoll && group != NoGroup && deadline != NoDeadline
      && groupGate.Some? && selectorGate.Some? && streamsGate.Some? && cleanupGate.Some?
    }

    function Observed(): Seen
      reads this
    {
      Seen(phase, poll, group, deadline, groupGate, selectorGate, streamsGate, cleanupGate)
    }

    /** The document for whoever asks why the child failed. */
    function ToDocument(): Document
      reads this
    {
      if captureFailed || phase == NoPhase then Unavailable()
      else Stating(Complete(), Observed())
    }
  }

  // ------------------------------------------------------- the reader's check

  const KEYS := ["availability", "child_poll", "cleanup_gate", "deadline_check", "group_check",
                 "group_gate", "last_phase", "schema_version", "selector_gate", "streams_gate"]

  predicate HasText(d: Document, key: string, allowed: set<string>)
    requires key in d
  {
    d[key].Text? && d[key].s in allowed
  }

  predicate IsGate(f: Field) {
    f.Nothing? || f.Flag?
  }

  /** The length of one value in compact JSON; numbers here have one digit. */
  function FieldLength(f: Field): nat {
    match f
    case Number(_) => 1
    case Text(s) => |s| + 2
    case Flag(b) => if b then 4 else 5
    case Nothing => 4
    case Other => 0
  }

  function JsonLength(d: Document, keys: seq<string>): nat
    requires forall k :: k in keys ==> k in d
  {
    if keys == [] then 1 else JsonLength(d, Init(keys)) + |Last(keys)| + 4 + FieldLength(d[Last(keys)])
  }

  /** Exactly the known keys, each with a value from its own domain. */
  predicate WellTyped(d: Document) {
    && d.Keys == Unavailable().Keys
    && d["schema_version"] == Number(1)
    && HasText(d, "availability", {"complete", "partial", "unavailable"})
    && HasText(d, "last_phase", {"cleanup_group", "kill_reap_fallback", "not_observed"})
    && HasText(d, "child_poll", {"returncode_observed", "no_returncode_observed", "failed", "not_observed"})
    && HasText(d, "group_check", {"absent_observed", "present_or_denied_observed", "unknown", "not_observed"})
    && HasText(d, "deadline_check", {"not_exceeded", "exceeded", "failed", "not_observed"})
    && IsGate(d["group_gate"]) && IsGate(d["selector_gate"]) && IsGate(d["streams_gate"]) && IsGate(d["cleanup_gate"])
  }

  /** A document that calls itself complete leaves nothing unobserved. */
  predicate CompleteIsComplete(d: Document)
    requires WellTyped(d)
  {
    d["availability"] == Text("complete") ==>
      && d["last_phase"] != Text("not_observed") && d["child_poll"] != Text("not_observed")
      && d["group_check"] != Text("not_observed") && d["deadline_check"] != Text("not_observed")
      && d["group_gate"].Flag? && d["selector_gate"].Flag? && d["streams_gate"].Flag? && d["cleanup_gate"].Flag?
  }

  /** Open gates are backed by observations and by each other. */
  predicate GatesAreBacked(d: Document)
    requires WellTyped(d)
  {
    && (d["group_gate"] == Flag(true) ==>
          && d["child_poll"] == Text("returncode_observed") && d["group_check"] == Text("absent_observed")
          && d["deadline_check"] == Text("not_exceeded"))
    && (d["cleanup_gate"] == Flag(true) ==>
          && d["availability"] == Text("complete")
          && d["group_gate"] == Flag(true) && d["selector_gate"] == Flag(true) && d["streams_gate"] == Flag(true))
  }

  /** The rules a diagnostic document must obey to be passed on. */
  predicate Admissible(d: Document) {
    && WellTyped(d)
    && d["availability"] != Text("unavailable")
    && CompleteIsComplete(d)
    && GatesAreBacked(d)
    && JsonLength(d, KEYS) <= 1024
  }

  /** What the reader passes on: the document, or the empty diagnosis. */
  function Validated(d: Document): Document {
    if Admissible(d) then d else Unavailable()
  }

  lemma ShortEnough(d: Document)
    requires d.Keys == Unavailable().Keys
    requires forall k :: k in KEYS ==> k in d && FieldLength(d[k]) <= 28
    ensures JsonLength(d, KEYS) <= 1024
  {
    ShortPrefix(d, |KEYS|);
    assert KEYS[..|KEYS|] == KEYS;
  }

  lemma {:induction false} ShortPrefix(d: Document, n: nat)
    requires n <= |KEYS|
    requires forall k :: k in KEYS ==> k in d && FieldLength(d[k]) <= 28
    ensures JsonLength(d, KEYS[..n]) <= 1 + 50 * n
  {
    if n > 0 {
      ShortPrefix(d, n - 1);
      assert Init(KEYS[..n]) == KEYS[..n - 1];
      assert |KEYS[n - 1]| <= 14;
    }
  }

  lemma TextsAreShort(phase: PhaseSeen, poll: PollSeen, group: GroupSeen, deadline: DeadlineSeen)
    ensures |PhaseText(phase)| <= 26 && |PollText(poll)| <= 26
            && |GroupText(group)| <= 26 && |DeadlineText(deadline)| <= 26
  {
  }

  /** Each text is one of its kind's. */
  lemma TextsAreKnown(phase: PhaseSeen, poll: PollSeen, group: GroupSeen, deadline: DeadlineSeen)
    ensures PhaseText(phase) in {"cleanup_group", "kill_reap_fallback", "not_observed"}
    ensures PollText(poll) in {"returncode_observed", "no_returncode_observed", "failed", "not_observed"}
    ensures GroupText(group) in {"absent_observed", "present_or_denied_observed", "unknown", "not_observed"}
    ensures DeadlineText(deadline) in {"not_exceeded", "exceeded", "failed", "not_observed"}
    ensures "complete" != "unavailable" && "partial" != "unavailable"
  {
    assert |"complete"| == 8 && |"partial"| == 7 && |"unavailable"| == 11;
  }

  /** Each text says which observation it is where that matters. */
  lemma TextsTell(phase: PhaseSeen, poll: PollSeen, group: GroupSeen, deadline: DeadlineSeen)
    ensures PhaseText(phase) == "not_observed" <==> phase == NoPhase
    ensures PollText(poll) == "not_observed" <==> poll == NoPoll
    ensures PollText(poll) == "returncode_observed" <==> poll == ReturncodeObserved
    ensures GroupText(group) == "not_observed" <==> group == NoGroup
    ensures GroupText(group) == "absent_observed" <==> group == AbsentObserved
    ensures DeadlineText(deadline) == "not_observed" <==> deadline == NoDeadline
    ensures DeadlineText(deadline) == "not_exceeded" <==> deadline == NotExceeded
  {
  }

  /** A document that states this, key by key. */
  ghost predicate Says(d: Document, complete: bool, o: Seen) {
    && d.Keys == Unavailable().Keys
    && d["schema_version"] == Number(1)
    && d["availability"] == Text(if complete then "complete" else "partial")
    && d["last_phase"] == Text(PhaseText(o.phase))
    && d["child_poll"] == Text(PollText(o.poll))
    && d["group_check"] == Text(GroupText(o.group))
    && d["group_gate"] == Gate(o.groupGate)
    && d["selector_gate"] == Gate(o.selectorGate)
    && d["streams_gate"] == Gate(o.streamsGate)
    && d["deadline_check"] == Text(DeadlineText(o.deadline))
    && d["cleanup_gate"] == Gate(o.cleanupGate)
  }

  lemma StatingSays(complete: bool, o: Seen)
    ensures Says(Stating(complete, o), complete, o)
  {
    hide PhaseText, PollText, GroupText, DeadlineText;
  }

  lemma SaysIsStating(d: Document, complete: bool, o: Seen)
    requires Says(d, complete, o)
    ensures d == Stating(complete, o)
  {
    hide PhaseText, PollText, GroupText, DeadlineText, Gate, Stating;
    StatingSays(complete, o);
    var e := Stating(complete, o);
    forall k | k in d.Keys ensures d[k] == e[k] {
    }
  }

  lemma SaysIsTyped(d: Document, complete: bool, o: Seen)
    requires Says(d, complete, o)
    ensures WellTyped(d) && d["availability"] != Text("unavailable")
  {
    hide PhaseText, PollText, GroupText, DeadlineText, Unavailable;
    TextsAreKnown(o.phase, o.poll, o.group, o.deadline);
  }

  lemma SaysIsShort(d: Document, complete: bool, o: Seen)
    requires Says(d, complete, o)
    ensures forall k :: k in KEYS ==> k in d
    ensures JsonLength(d, KEYS) <= 1024
  {
    hide PhaseText, PollText, GroupText, DeadlineText, JsonLength;
    TextsAreShort(o.phase, o.poll, o.group, o.deadline);
    assert |"complete"| == 8 && |"partial"| == 7;
    forall i | 0 <= i < |KEYS| ensures KEYS[i] in d && FieldLength(d[KEYS[i]]) <= 28 {
      assert i == 0 || i == 1 || i == 2 || i == 3 || i == 4 || i == 5 || i == 6 || i == 7 || i == 8 || i == 9;
    }
    ShortEnough(d);
  }

  /** The reader's rules on a document that says so are the rules on what may be said. */
  lemma BackedIffStatable(d: Document, complete: bool, o: Seen)
    requires Says(d, complete, o) && WellTyped(d)
    ensures Statable(complete, o) <==>
            CompleteIsComplete(d) && GatesAreBacked(d)
  {
    hide PhaseText, PollText, GroupText, DeadlineText, WellTyped, Unavailable;
    TextsTell(o.phase, o.poll, o.group, o.deadline);
    assert |"complete"| == 8 && |"partial"| == 7;
  }

  /** Whatever may be said is passed on as it is. */
  lemma StatableIsPassedOn(complete: bool, o: Seen)
    requires Statable(complete, o)
    ensures Validated(Stating(complete, o)) == Stating(complete, o)
  {
    hide Stating, WellTyped, CompleteIsComplete, GatesAreBacked, Says, JsonLength, Statable;
    var d := Stating(complete, o);
    StatingSays(complete, o);
    SaysIsTyped(d, complete, o);
    SaysIsShort(d, complete, o);
    BackedIffStatable(d, complete, o);
  }

  /** A consistent snapshot's document is never discarded: the reader passes on unchanged what it says was seen. */
  lemma ConsistentIsPassedOn(s: Snapshot)
    requires s.Consistent()
    ensures Validated(s.ToDocument()) == s.ToDocument()
    ensures !s.captureFailed && s.phase != NoPhase ==> Says(s.ToDocument(), s.Complete(), s.Observed())
  {
    hide Stating, Validated, Says;
    if s.captureFailed || s.phase == NoPhase {
      UnavailableIsPassedOn();
    } else {
      StatingSays(s.Complete(), s.Observed());
      StatableIsPassedOn(s.Complete(), s.Observed());
    }
  }

  lemma UnavailableIsPassedOn()
    ensures Validated(Unavailable()) == Unavailable()
  {
  }

  // ------------------------------------------------------- and nothing else is passed on

  function PhaseOf(s: string): PhaseSeen {
    if s == "cleanup_group" then CleanupGroup else if s == "kill_reap_fallback" then KillReapFallback else NoPhase
  }

  function PollOf(s: string): PollSeen {
    if s == "returncode_observed" then ReturncodeObserved
    else if s == "no_returncode_observed" then NoReturncodeObserved
    else if s == "failed" then PollFailed else NoPoll
  }

  function GroupOf(s: string): GroupSeen {
    if s == "absent_observed" then AbsentObserved else if s == "present_or_denied_observed" then PresentOrDenied
    else if s == "unknown" then GroupUnknown else NoGroup
  }

  function DeadlineOf(s: string): DeadlineSeen {
    if s == "not_exceeded" then NotExceeded else if s == "exceeded" then Exceeded
    else if s == "failed" then DeadlineFailed else NoDeadline
  }

  function GateOf(f: Field): Option<bool> {
    if f.Flag? then Some(f.b) else None
  }

  /** What a well-typed document says was seen. */
  function ReadSeen(d: Document): Seen
    requires WellTyped(d)
  {
    Seen(PhaseOf(d["last_phase"].s), PollOf(d["child_poll"].s), GroupOf(d["group_check"].s),
         DeadlineOf(d["deadline_check"].s), GateOf(d["group_gate"]), GateOf(d["selector_gate"]),
         GateOf(d["streams_gate"]), GateOf(d["cleanup_gate"]))
  }

  lemma TextsBack(phase: string, poll: string, group: string, deadline: string)
    ensures phase in {"cleanup_group", "kill_reap_fallback", "not_observed"} ==> PhaseText(PhaseOf(phase)) == phase
    ensures poll in {"returncode_observed", "no_returncode_observed", "failed", "not_observed"} ==>
              PollText(PollOf(poll)) == poll
    ensures group in {"absent_observed", "present_or_denied_observed", "unknown", "not_observed"} ==>
              GroupText(GroupOf(group)) == group
    ensures deadline in {"not_exceeded", "exceeded", "failed", "not_observed"} ==>
              DeadlineText(DeadlineOf(deadline)) == deadline
  {
  }

  lemma TypedSays(d: Document)
    requires WellTyped(d) && d["availability"] != Text("unavailable")
    ensures Says(d, d["availability"] == Text("complete"), ReadSeen(d))
  {
    hide PhaseText, PollText, GroupText, DeadlineText, PhaseOf, PollOf, GroupOf, DeadlineOf;
    TextsBack(d["last_phase"].s, d["child_poll"].s, d["group_check"].s, d["deadline_check"].s);
  }

  /** A document that survives is the empty diagnosis or states what may be said; any other is replaced by it. */
  lemma OnlyStatableIsPassedOn(d: Document) returns (complete: bool, o: Seen)
    ensures Validated(d) != d ==> Validated(d) == Unavailable()
    ensures Validated(d) == d && d != Unavailable() ==> Statable(complete, o) && d == Stating(complete, o)
  {
    hide CompleteIsComplete, GatesAreBacked, JsonLength, Statable, Stating, Says, ReadSeen;
    complete, o := false, Seen(NoPhase, NoPoll, NoGroup, NoDeadline, None, None, None, None);
    if Admissible(d) {
      complete, o := d["availability"] == Text("complete"), ReadSeen(d);
      TypedSays(d);
      SaysIsStating(d, complete, o);
      BackedIffStatable(d, complete, o);
    }
  }
}
