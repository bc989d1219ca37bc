/**
 * Runs in which a report is misled: it says "ready" of gates that the two files never shared,
 * because a collector began out of turn, or because collectors died half-way.
 */
module GateMisreports {
  import opened Common
  import opened GateStore
  import opened GateInterleaving
  import opened GateOverlap
  import opened GateReports

  lemma {:induction false} SettledJoin(hash: BindHash, w: World, a: seq<Move>, b: seq<Move>)
    ensures Settled(hash, w, a + b) == Settled(hash, w, a) + Settled(hash, End(hash, w, a), b)
  {
    hide Shared, Next;
    if b == [] {
      assert a + b == a;
      LastSettled(hash, w, a);
    } else {
      SettledJoin(hash, w, a, Init(b));
      assert Init(a + b) == a + Init(b);
      JoinEnds(hash, w, a, b);
    }
  }

  function At(gates: Gates, id: string): Option<Record> {
    if id in gates then Some(gates[id]) else None
  }

  /**
   * The gate `id` is `x` in the checkpoint and `y` in the evidence, in every copy as well,
   * and nobody is about to change that.
   */
  ghost predicate Holds(w: World, id: string, x: Option<Record>, y: Option<Record>) {
    && At(w.checkpoint, id) == x && At(w.evidence, id) == y
    && forall p :: p in w.locals ==>
         var l := w.locals[p];
         && (l.Admitted? ==> l.id != id)
         && (l.Judged? || l.HalfRead? || l.Loaded? || l.HalfWritten? ==> l.record.gateId != id)
         && (l.HalfRead? || l.Loaded? ==> At(l.checkpoint, id) == x)
         && (l.Loaded? || l.HalfWritten? ==> At(l.evidence, id) == y)
  }

  predicate BeginsOther(m: Move, id: string) {
    m.action.Begin? ==> m.action.record.gateId != id
  }

  lemma MoveHolds(hash: BindHash, w: World, m: Move, id: string, x: Option<Record>, y: Option<Record>)
    requires Holds(w, id, x, y) && Enabled(hash, w, m) && BeginsOther(m, id) && !WriteOnce(id) && id != "report"
    ensures Holds(Apply(hash, w, m), id, x, y)
  {
    hide BoundWheel, ValidRecords, IsSha256, Resumes, InBoth;
  }

  /** A gate that nobody records stays as it is, in whatever both files come to hold. */
  lemma {:induction false} RunHolds(hash: BindHash, rule: Rule, w: World, moves: seq<Move>, id: string,
                                    x: Option<Record>, y: Option<Record>)
    requires Holds(w, id, x, y) && Possible(hash, rule, w, moves) && !WriteOnce(id) && id != "report"
    requires forall i :: 0 <= i < |moves| ==> BeginsOther(moves[i], id)
    ensures Holds(End(hash, w, moves), id, x, y)
    ensures forall gates :: gates in Settled(hash, w, moves) ==> At(gates, id) == x == y
  {
    hide Enabled, Apply, Allowed, BeginsOther;
    if moves != [] {
      RunHolds(hash, rule, w, Init(moves), id, x, y);
      assert BeginsOther(Last(moves), id);
      MoveHolds(hash, End(hash, w, Init(moves)), Last(moves), id, x, y);
    }
  }

  /** Three collectors and their files. */
  function Trio(checkpoint: Gates, evidence: Gates, l1: Local, l2: Local, l3: Local, reports: seq<Report>): World {
    World(checkpoint, evidence, map[1 := l1, 2 := l2, 3 := l3], reports)
  }

  function Resting(gates: Gates): World {
    Trio(gates, gates, Idle, Idle, Idle, [])
  }

  /** A passed gate that needs no admission. */
  function Passed(id: string, c: char): Record
    requires '0' <= c <= '9'
  {
    Record(id, Digest(c), Pass, Details(None, None, None, ""))
  }

  /**
   * Two collectors load and the first replaces the checkpoint; a report reads that; the second
   * overwrites it; the first replaces the evidence, and the report reads that.
   */
  function Moves(a: Record, b: Record, h: string): seq<Move> {
    [Move(1, Begin(a)), Move(1, Load), Move(2, Begin(b)), Move(2, Load), Move(1, WriteCheckpoint),
     Move(3, ReadReport), Move(2, WriteCheckpoint), Move(1, WriteEvidence), Move(3, Judge(h)), Move(2, WriteEvidence)]
  }

  function WorldAt(c: Gates, a: Record, b: Record, h: string, ready: bool, k: nat): World {
    var ca, cb := c[a.gateId := a], c[b.gateId := b];
    var judged, report := Judged(ReportRecord(h, ready)), [Report(ca, ready)];
    if k == 0 then Trio(c, c, Idle, Idle, Idle, [])
    else if k == 1 then Trio(c, c, HalfRead(a, c), Idle, Idle, [])
    else if k == 2 then Trio(c, c, Loaded(a, c, c), Idle, Idle, [])
    else if k == 3 then Trio(c, c, Loaded(a, c, c), HalfRead(b, c), Idle, [])
    else if k == 4 then Trio(c, c, Loaded(a, c, c), Loaded(b, c, c), Idle, [])
    else if k == 5 then Trio(ca, c, HalfWritten(a, c), Loaded(b, c, c), Idle, [])
    else if k == 6 then Trio(ca, c, HalfWritten(a, c), Loaded(b, c, c), Reporting(ca), [])
    else if k == 7 then Trio(cb, c, HalfWritten(a, c), HalfWritten(b, c), Reporting(ca), [])
    else if k == 8 then Trio(cb, ca, Idle, HalfWritten(b, c), Reporting(ca), [])
    else if k == 9 then Trio(cb, ca, Idle, HalfWritten(b, c), judged, report)
    else Trio(cb, cb, Idle, Idle, judged, report)
  }

  /** Two different records of one gate that no collector has recorded. */
  predicate NewPair(c: Gates, a: Record, b: Record) {
    && !WriteOnce(a.gateId) && a.gateId != "report" && b.gateId == a.gateId && a != b
    && a.gateId !in c && ValidRecords(c) && IsSha256(a.inputHash) && IsSha256(b.inputHash)
  }

  lemma UncutAllows(w: World, m: Move)
    requires !m.action.Restart?
    ensures Allowed(UNCUT, w, m)
  {
  }

  lemma ReadApplies(hash: BindHash, w: World, p: int)
    requires p in w.locals && w.locals[p].Idle?
    ensures var m := Move(p, ReadReport);
            Enabled(hash, w, m) && Apply(hash, w, m) == w.(locals := w.locals[p := Reporting(w.checkpoint)])
  {
  }

  lemma JudgeApplies(hash: BindHash, w: World, p: int, h: string)
    requires p in w.locals && w.locals[p].Reporting? && w.locals[p].checkpoint == w.evidence
    requires ValidRecords(w.evidence) && IsSha256(h)
    ensures var m, ready := Move(p, Judge(h)), Ready(hash, w.evidence);
            && Enabled(hash, w, m)
            && Apply(hash, w, m) == w.(locals := w.locals[p := Judged(ReportRecord(h, ready))],
                                       reports := w.reports + [Report(w.evidence, ready)])
  {
    hide Ready, ValidRecords, IsSha256;
  }

  lemma ThreePlaces<T>(l1: T, l2: T, l3: T, l: T)
    ensures map[1 := l1, 2 := l2, 3 := l3][1 := l] == map[1 := l, 2 := l2, 3 := l3]
    ensures map[1 := l1, 2 := l2, 3 := l3][2 := l] == map[1 := l1, 2 := l, 3 := l3]
    ensures map[1 := l1, 2 := l2, 3 := l3][3 := l] == map[1 := l1, 2 := l2, 3 := l]
    ensures map[1 := l1, 2 := l2, 3 := l3].Keys == {1, 2, 3}
  {
  }

  /** What one of the three does, to its own place, the files and the reports. */
  lemma TrioChanges(w: World, l1: Local, l2: Local, l3: Local, l: Local, c: Gates, e: Gates, reports: seq<Report>)
    requires w == Trio(w.checkpoint, w.evidence, l1, l2, l3, w.reports)
    ensures w.locals.Keys == {1, 2, 3} && w.locals[1] == l1 && w.locals[2] == l2 && w.locals[3] == l3
    ensures World(c, e, w.locals[1 := l], reports) == Trio(c, e, l, l2, l3, reports)
    ensures World(c, e, w.locals[2 := l], reports) == Trio(c, e, l1, l, l3, reports)
    ensures World(c, e, w.locals[3 := l], reports) == Trio(c, e, l1, l2, l, reports)
  {
    ThreePlaces(l1, l2, l3, l);
  }

  lemma TrioFiles(c: Gates, e: Gates, l1: Local, l2: Local, l3: Local, reports: seq<Report>)
    ensures var w := Trio(c, e, l1, l2, l3, reports);
            w.checkpoint == c && w.evidence == e && w.reports == reports
  {
  }

  ghost predicate Turn(hash: BindHash, c: Gates, a: Record, b: Record, h: string, i: nat) {
    var ready := Ready(hash, c[a.gateId := a]);
    var w, m := WorldAt(c, a, b, h, ready, i), if i < 10 then Moves(a, b, h)[i] else Move(0, Load);
    Enabled(hash, w, m) && Allowed(UNCUT, w, m) && Apply(hash, w, m) == WorldAt(c, a, b, h, ready, i + 1)
  }

  lemma Beginnings(hash: BindHash, c: Gates, a: Record, b: Record, h: string)
    requires NewPair(c, a, b)
    ensures Turn(hash, c, a, b, h, 0) && Turn(hash, c, a, b, h, 2)
  {
    hide Enabled, Apply, Allowed, Ready, Trio;
    var w0, w2 := Trio(c, c, Idle, Idle, Idle, []), Trio(c, c, Loaded(a, c, c), Idle, Idle, []);
    TrioFiles(c, c, Idle, Idle, Idle, []);
    TrioFiles(c, c, Loaded(a, c, c), Idle, Idle, []);
    UncutAllows(w0, Move(1, Begin(a)));
    TrioChanges(w0, Idle, Idle, Idle, HalfRead(a, c), c, c, []);
    BeginApplies(hash, w0, 1, a);
    UncutAllows(w2, Move(2, Begin(b)));
    TrioChanges(w2, Loaded(a, c, c), Idle, Idle, HalfRead(b, c), c, c, []);
    BeginApplies(hash, w2, 2, b);
  }

  lemma Loads(hash: BindHash, c: Gates, a: Record, b: Record, h: string)
    ensures Turn(hash, c, a, b, h, 1) && Turn(hash, c, a, b, h, 3)
  {
    hide Enabled, Apply, Allowed, Ready, Trio;
    var w1, w3 := Trio(c, c, HalfRead(a, c), Idle, Idle, []), Trio(c, c, Loaded(a, c, c), HalfRead(b, c), Idle, []);
    TrioFiles(c, c, HalfRead(a, c), Idle, Idle, []);
    TrioFiles(c, c, Loaded(a, c, c), HalfRead(b, c), Idle, []);
    UncutAllows(w1, Move(1, Load));
    TrioChanges(w1, HalfRead(a, c), Idle, Idle, Loaded(a, c, c), c, c, []);
    LoadApplies(hash, w1, 1);
    UncutAllows(w3, Move(2, Load));
    TrioChanges(w3, Loaded(a, c, c), HalfRead(b, c), Idle, Loaded(b, c, c), c, c, []);
    LoadApplies(hash, w3, 2);
  }

  lemma FirstCheckpoint(hash: BindHash, c: Gates, a: Record, b: Record, h: string)
    requires NewPair(c, a, b)
    ensures Turn(hash, c, a, b, h, 4)
  {
    hide Enabled, Apply, Allowed, Ready, Trio;
    var w := Trio(c, c, Loaded(a, c, c), Loaded(b, c, c), Idle, []);
    TrioFiles(c, c, Loaded(a, c, c), Loaded(b, c, c), Idle, []);
    UncutAllows(w, Move(1, WriteCheckpoint));
    TrioChanges(w, Loaded(a, c, c), Loaded(b, c, c), Idle, HalfWritten(a, c), c[a.gateId := a], c, []);
    CheckpointApplies(hash, w, 1);
  }

  lemma SecondCheckpoint(hash: BindHash, c: Gates, a: Record, b: Record, h: string)
    requires NewPair(c, a, b)
    ensures Turn(hash, c, a, b, h, 6)
  {
    hide Enabled, Apply, Allowed, Ready, Trio;
    var ca := c[a.gateId := a];
    var w := Trio(ca, c, HalfWritten(a, c), Loaded(b, c, c), Reporting(ca), []);
    TrioFiles(ca, c, HalfWritten(a, c), Loaded(b, c, c), Reporting(ca), []);
    UncutAllows(w, Move(2, WriteCheckpoint));
    TrioChanges(w, HalfWritten(a, c), Loaded(b, c, c), Reporting(ca), HalfWritten(b, c), c[b.gateId := b], c, []);
    CheckpointApplies(hash, w, 2);
  }

  lemma FirstEvidence(hash: BindHash, c: Gates, a: Record, b: Record, h: string)
    ensures Turn(hash, c, a, b, h, 7)
  {
    hide Enabled, Apply, Allowed, Ready, Trio;
    var ca, cb := c[a.gateId := a], c[b.gateId := b];
    var w := Trio(cb, c, HalfWritten(a, c), HalfWritten(b, c), Reporting(ca), []);
    TrioFiles(cb, c, HalfWritten(a, c), HalfWritten(b, c), Reporting(ca), []);
    UncutAllows(w, Move(1, WriteEvidence));
    TrioChanges(w, HalfWritten(a, c), HalfWritten(b, c), Reporting(ca), Idle, cb, ca, []);
    EvidenceApplies(hash, w, 1);
  }

  lemma SecondEvidence(hash: BindHash, c: Gates, a: Record, b: Record, h: string)
    ensures Turn(hash, c, a, b, h, 9)
  {
    hide Enabled, Apply, Allowed, Ready, Trio;
    var ca, cb := c[a.gateId := a], c[b.gateId := b];
    var ready := Ready(hash, ca);
    var judged, report := Judged(ReportRecord(h, ready)), [Report(ca, ready)];
    var w := Trio(cb, ca, Idle, HalfWritten(b, c), judged, report);
    TrioFiles(cb, ca, Idle, HalfWritten(b, c), judged, report);
    UncutAllows(w, Move(2, WriteEvidence));
    TrioChanges(w, Idle, HalfWritten(b, c), judged, Idle, cb, cb, report);
    EvidenceApplies(hash, w, 2);
  }

  lemma ReportReads(hash: BindHash, c: Gates, a: Record, b: Record, h: string)
    ensures Turn(hash, c, a, b, h, 5)
  {
    hide Enabled, Apply, Allowed, Ready, Trio;
    var ca := c[a.gateId := a];
    var w := Trio(ca, c, HalfWritten(a, c), Loaded(b, c, c), Idle, []);
    TrioFiles(ca, c, HalfWritten(a, c), Loaded(b, c, c), Idle, []);
    UncutAllows(w, Move(3, ReadReport));
    TrioChanges(w, HalfWritten(a, c), Loaded(b, c, c), Idle, Reporting(ca), ca, c, []);
    ReadApplies(hash, w, 3);
  }

  lemma ReportJudges(hash: BindHash, c: Gates, a: Record, b: Record, h: string)
    requires NewPair(c, a, b) && IsSha256(h)
    ensures Turn(hash, c, a, b, h, 8)
  {
    hide Enabled, Apply, Allowed, Ready, Trio;
    var ca, cb := c[a.gateId := a], c[b.gateId := b];
    var ready := Ready(hash, ca);
    var w := Trio(cb, ca, Idle, HalfWritten(b, c), Reporting(ca), []);
    TrioFiles(cb, ca, Idle, HalfWritten(b, c), Reporting(ca), []);
    UncutAllows(w, Move(3, Judge(h)));
    TrioChanges(w, Idle, HalfWritten(b, c), Reporting(ca), Judged(ReportRecord(h, ready)), cb, ca, [Report(ca, ready)]);
    JudgeApplies(hash, w, 3, h);
  }

  lemma EveryTurn(hash: BindHash, c: Gates, a: Record, b: Record, h: string, i: nat)
    requires NewPair(c, a, b) && IsSha256(h) && i < 10
    ensures Turn(hash, c, a, b, h, i)
  {
    hide Turn;
    Beginnings(hash, c, a, b, h);
    Loads(hash, c, a, b, h);
    FirstCheckpoint(hash, c, a, b, h);
    SecondCheckpoint(hash, c, a, b, h);
    FirstEvidence(hash, c, a, b, h);
    SecondEvidence(hash, c, a, b, h);
    ReportReads(hash, c, a, b, h);
    ReportJudges(hash, c, a, b, h);
  }

  /** In none of those worlds do both files hold what the report judges. */
  lemma NeverShared(c: Gates, a: Record, b: Record, h: string, ready: bool, i: nat)
    requires NewPair(c, a, b)
    ensures var w := WorldAt(c, a, b, h, ready, i);
            !(w.checkpoint == w.evidence == c[a.gateId := a])
  {
    var ca, cb := c[a.gateId := a], c[b.gateId := b];
    assert ca[a.gateId] == a && cb[a.gateId] == b;
    assert c != ca;
  }

  /** The report has judged content that the two files never shared. */
  lemma JudgesUnsettled(hash: BindHash, c: Gates, a: Record, b: Record, h: string)
    requires NewPair(c, a, b) && IsSha256(h)
    ensures var w, ca := Resting(c), c[a.gateId := a];
            var v := End(hash, w, Moves(a, b, h));
            && Possible(hash, UNCUT, w, Moves(a, b, h)) && v.checkpoint == v.evidence
            && v.reports == [Report(ca, Ready(hash, ca))] && ca !in Settled(hash, w, Moves(a, b, h))
  {
    var ca := c[a.gateId := a];
    var ready := Ready(hash, ca);
    var moves := Moves(a, b, h);
    hide Possible, End, Settled, Enabled, Apply, Allowed, Ready, NewPair, IsSha256;
    var worlds := seq(11, i requires 0 <= i < 11 => WorldAt(c, a, b, h, ready, i));
    forall i | 0 <= i < 10
      ensures Enabled(hash, worlds[i], moves[i]) && Allowed(UNCUT, worlds[i], moves[i])
      ensures Apply(hash, worlds[i], moves[i]) == worlds[i + 1]
    {
      EveryTurn(hash, c, a, b, h, i);
    }
    TurnsRun(hash, UNCUT, worlds, moves);
    forall i | 0 <= i < 11 ensures !(worlds[i].checkpoint == worlds[i].evidence == ca) {
      NeverShared(c, a, b, h, ready, i);
    }
  }

  // ------------------------------------------------------- from the empty store

  function Preflight(): Gates {
    NO_GATES["preflight" := Passed("preflight", '0')]
  }

  function WithWheel(hash: BindHash): Gates {
    Preflight()["wheel" := PassedWheel(hash, '0', Digest('0'))]
  }

  function WithSoak(hash: BindHash): Gates {
    WithWheel(hash)["soak" := PassedSoak(hash, '0', Digest('0'))]
  }

  /** Every required gate passed but the issues. */
  function ButIssues(hash: BindHash): Gates {
    WithSoak(hash)["final_code_audit" := Passed("final_code_audit", '0')]
  }

  function FirstHalf(hash: BindHash): seq<Move> {
    Solo(1, Passed("preflight", '0')) + WheelMoves(1, PassedWheel(hash, '0', Digest('0')))
  }

  function SecondHalf(hash: BindHash): seq<Move> {
    SoakMoves(1, Digest('0'), PassedSoak(hash, '0', Digest('0'))) + Solo(1, Passed("final_code_audit", '0'))
  }

  function PreparingMoves(hash: BindHash): seq<Move> {
    FirstHalf(hash) + SecondHalf(hash)
  }

  lemma RestIsQuiet(gates: Gates)
    ensures var w := Resting(gates);
            && AtRest(w) && Quiet(w) && w.locals.Keys == {1, 2, 3} && w.checkpoint == gates && w.evidence == gates
            && (forall p :: p in w.locals ==> w.locals[p].Idle? && !Pending(w.locals[p], "soak"))
    ensures forall r: Record :: AndWritten(Resting(gates), r) == Resting(gates[r.gateId := r])
  {
  }

  lemma PreparesFirst(hash: BindHash)
    ensures Possible(hash, STRICT, Resting(NO_GATES), FirstHalf(hash))
    ensures End(hash, Resting(NO_GATES), FirstHalf(hash)) == Resting(WithWheel(hash))
  {
    hide Possible, End, Solo, WheelMoves, AtRest, Quiet, Resting, AndWritten, Pending;
    RestIsQuiet(NO_GATES);
    RestIsQuiet(Preflight());
    var wheel := PassedWheel(hash, '0', Digest('0'));
    RestRecords(hash, Resting(NO_GATES), 1, Passed("preflight", '0'));
    RestRecordsWheel(hash, Resting(Preflight()), 1, wheel);
    Join(hash, STRICT, Resting(NO_GATES), Solo(1, Passed("preflight", '0')), WheelMoves(1, wheel));
  }

  /** What the soak is checked against. */
  lemma WheelStands(hash: BindHash)
    ensures var gates := WithWheel(hash);
            && ValidRecords(gates) && BoundWheel(hash, gates) && "soak" !in gates
            && gates["wheel"] == PassedWheel(hash, '0', Digest('0'))
            && !Resumes(WithSoak(hash), Passed("final_code_audit", '0'))
  {
  }

  lemma PreparesSecond(hash: BindHash)
    ensures Possible(hash, STRICT, Resting(WithWheel(hash)), SecondHalf(hash))
    ensures End(hash, Resting(WithWheel(hash)), SecondHalf(hash)) == Resting(ButIssues(hash))
  {
    hide Possible, End, Solo, SoakMoves, AtRest, Quiet, Resting, AndWritten, Pending, WithWheel,
         ValidRecords, BoundWheel, Resumes, IsSha256;
    var w, soak, audit := Resting(WithWheel(hash)), PassedSoak(hash, '0', Digest('0')), Passed("final_code_audit", '0');
    WheelStands(hash);
    RestIsQuiet(WithWheel(hash));
    RestIsQuiet(WithSoak(hash));
    RecordsSoak(hash, w, 1, soak);
    RestRecords(hash, Resting(WithSoak(hash)), 1, audit);
    Join(hash, STRICT, w, SoakMoves(1, Digest('0'), soak), Solo(1, audit));
  }

  lemma Prepares(hash: BindHash)
    ensures Possible(hash, STRICT, Resting(NO_GATES), PreparingMoves(hash))
    ensures End(hash, Resting(NO_GATES), PreparingMoves(hash)) == Resting(ButIssues(hash))
  {
    hide Possible, End, Resting, FirstHalf, SecondHalf;
    PreparesFirst(hash);
    PreparesSecond(hash);
    Join(hash, STRICT, Resting(NO_GATES), FirstHalf(hash), SecondHalf(hash));
  }

  lemma PreparationLacksIssues(hash: BindHash, i: nat)
    requires i < |PreparingMoves(hash)|
    ensures BeginsOther(PreparingMoves(hash)[i], "issues")
  {
  }

  /** The gates that the misled report judges. */
  function WithIssues(hash: BindHash): Gates {
    ButIssues(hash)["issues" := Passed("issues", '0')]
  }

  lemma ReadyWithIssues(hash: BindHash)
    ensures Ready(hash, WithIssues(hash)) && ValidRecords(WithIssues(hash)) && ValidRecords(ButIssues(hash))
    ensures "issues" !in ButIssues(hash)
  {
  }

  /**
   * A crash-free run from the empty store in which a report says "ready" although the gates it
   * judged, well-formed records all, were never the content of both files.
   */
  lemma ReadyUnsettled(hash: BindHash) returns (w: World, moves: seq<Move>)
    ensures Start(w) && Possible(hash, UNCUT, w, moves)
    ensures var v := End(hash, w, moves);
            && v.checkpoint == v.evidence && |v.reports| == 1 && v.reports[0].ready
            && ValidRecords(v.reports[0].gates) && v.reports[0].gates !in Settled(hash, w, moves)
  {
    hide Possible, End, Settled, PreparingMoves, Moves, ButIssues, Ready, Resting, NewPair, ValidRecords, IsSha256;
    var a, b := Passed("issues", '0'), Passed("issues", '1');
    var c, h := ButIssues(hash), Digest('0');
    w := Resting(NO_GATES);
    var first, second := PreparingMoves(hash), Moves(a, b, h);
    ReadyWithIssues(hash);
    IssuesAreNew(hash);
    LacksIssues(hash);
    Weaken(hash, STRICT, UNCUT, w, first);
    JudgesUnsettled(hash, c, a, b, h);
    Join(hash, UNCUT, w, first, second);
    SettledJoin(hash, w, first, second);
    moves := first + second;
  }

  lemma IssuesAreNew(hash: BindHash)
    ensures NewPair(ButIssues(hash), Passed("issues", '0'), Passed("issues", '1'))
  {
    hide ButIssues;
    ReadyWithIssues(hash);
    DigestsDiffer();
  }

  /** Before the issues are recorded, no content has them. */
  lemma LacksIssues(hash: BindHash)
    ensures var w, moves := Resting(NO_GATES), PreparingMoves(hash);
            && Start(w) && Possible(hash, STRICT, w, moves) && End(hash, w, moves) == Resting(ButIssues(hash))
            && WithIssues(hash) !in Settled(hash, w, moves)
  {
    hide Possible, End, Settled, PreparingMoves, ButIssues;
    var w, moves := Resting(NO_GATES), PreparingMoves(hash);
    assert Start(w) && Holds(w, "issues", None, None);
    Prepares(hash);
    forall i | 0 <= i < |moves| ensures BeginsOther(moves[i], "issues") {
      PreparationLacksIssues(hash, i);
    }
    RunHolds(hash, STRICT, w, moves, "issues", None, None);
  }

  // ------------------------------------------------------- collectors in turn that die half-way

  /** A collector that records `r` and dies between its two writes. */
  function Dying(p: int, r: Record): seq<Move> {
    [Move(p, Begin(r)), Move(p, Load), Move(p, WriteCheckpoint), Move(p, Restart)]
  }

  lemma Dies(hash: BindHash, w: World, p: int, r: Record)
    requires p in w.locals && MayRecord(hash, w.locals[p], r) && !Resumes(w.checkpoint, r) && Quiet(w)
    ensures Possible(hash, ORDERLY, w, Dying(p, r))
    ensures End(hash, w, Dying(p, r)) == w.(checkpoint := w.checkpoint[r.gateId := r], locals := w.locals[p := Idle])
  {
    hide Possible, End, Enabled, Apply, Allowed, MayRecord, Resumes, Quiet, Settled;
    var w1 := w.(locals := w.locals[p := HalfRead(r, w.checkpoint)]);
    var w2 := w.(locals := w.locals[p := Loaded(r, w.checkpoint, w.evidence)]);
    var w3 := w.(checkpoint := w.checkpoint[r.gateId := r], locals := w.locals[p := HalfWritten(r, w.evidence)]);
    var w4 := w3.(locals := w.locals[p := Idle]);
    QuietBegins(hash, w, p, r);
    assert Allowed(ORDERLY, w, Move(p, Begin(r))) by {
      AllowedAtLeast(STRICT, ORDERLY, w, Move(p, Begin(r)));
    }
    BeginApplies(hash, w, p, r);
    LoadApplies(hash, w1, p);
    FreeIsAllowed(ORDERLY, w1, Move(p, Load));
    assert w1.locals[p := w2.locals[p]] == w2.locals;
    CheckpointApplies(hash, w2, p);
    FreeIsAllowed(ORDERLY, w2, Move(p, WriteCheckpoint));
    assert w2.locals[p := w3.locals[p]] == w3.locals;
    StopApplies(hash, w3, p);
    assert w3.locals[p := Idle] == w4.locals;
    TurnsRun(hash, ORDERLY, [w, w1, w2, w3, w4], Dying(p, r));
    assert [w, w1, w2, w3, w4][0] == w;
  }

  lemma AllowedAtLeast(strong: Rule, weak: Rule, w: World, m: Move)
    requires AtLeast(strong, weak) && Allowed(strong, w, m)
    ensures Allowed(weak, w, m)
  {
  }

  lemma StopApplies(hash: BindHash, w: World, p: int)
    requires p in w.locals
    ensures var m := Move(p, Restart);
            Enabled(hash, w, m) && Allowed(ORDERLY, w, m) && Apply(hash, w, m) == w.(locals := w.locals[p := Idle])
  {
  }

  predicate LeavesEvidence(moves: seq<Move>) {
    forall i :: 0 <= i < |moves| ==> !moves[i].action.WriteEvidence?
  }

  lemma {:induction false} EvidenceStays(hash: BindHash, w: World, moves: seq<Move>)
    requires LeavesEvidence(moves)
    ensures End(hash, w, moves).evidence == w.evidence
    ensures forall gates :: gates in Settled(hash, w, moves) ==> gates == w.evidence
  {
    hide Enabled;
    if moves != [] {
      EvidenceStays(hash, w, Init(moves));
    }
  }

  /**
   * One collector dies with the issues half-written, a report reads that,
   * and another dies with the preflight half-written.
   */
  function DyingMoves(): seq<Move> {
    Dying(1, Passed("issues", '0')) + [Move(3, ReadReport)] + Dying(2, Passed("preflight", '1'))
  }

  /** After the deaths: the preflight is new in the checkpoint only, and the report is under way. */
  function AfterDeaths(hash: BindHash): World {
    Trio(WithIssues(hash)["preflight" := Passed("preflight", '1')], ButIssues(hash),
         Idle, Idle, Reporting(WithIssues(hash)), [])
  }

  lemma TwoDie(hash: BindHash)
    ensures Possible(hash, ORDERLY, Resting(ButIssues(hash)), DyingMoves())
    ensures End(hash, Resting(ButIssues(hash)), DyingMoves()) == AfterDeaths(hash)
    ensures WithIssues(hash) !in Settled(hash, Resting(ButIssues(hash)), DyingMoves())
  {
    hide Possible, End, Enabled, Apply, Allowed, ButIssues, Resumes, Settled, Dying;
    var w, a, e := Resting(ButIssues(hash)), Passed("issues", '0'), Passed("preflight", '1');
    NotThere(hash);
    Dies(hash, w, 1, a);
    var w1 := Trio(WithIssues(hash), ButIssues(hash), Idle, Idle, Idle, []);
    var w2 := Trio(WithIssues(hash), ButIssues(hash), Idle, Idle, Reporting(WithIssues(hash)), []);
    assert End(hash, w, Dying(1, a)) == w1;
    ReadApplies(hash, w1, 3);
    FreeMove(hash, ORDERLY, w, Dying(1, a), Move(3, ReadReport));
    assert End(hash, w, Dying(1, a) + [Move(3, ReadReport)]) == w2;
    Dies(hash, w2, 2, e);
    Join(hash, ORDERLY, w, Dying(1, a) + [Move(3, ReadReport)], Dying(2, e));
    DyingLeavesEvidence();
    EvidenceStays(hash, w, DyingMoves());
  }

  lemma DyingLeavesEvidence()
    ensures LeavesEvidence(DyingMoves())
  {
  }

  lemma NotThere(hash: BindHash)
    ensures "issues" !in ButIssues(hash) && ButIssues(hash) != WithIssues(hash)
    ensures !Resumes(ButIssues(hash), Passed("issues", '0')) && !Resumes(WithIssues(hash), Passed("preflight", '1'))
    ensures At(ButIssues(hash), "preflight") == Some(Passed("preflight", '0'))
    ensures Passed("preflight", '0') != Passed("preflight", '1')
  {
    DigestsDiffer();
  }

  /** The two collections of the issues put both files right there, but not at the preflight. */
  lemma TwoCollect(hash: BindHash)
    ensures var first, second := Solo(1, Passed("issues", '1')), Solo(1, Passed("issues", '0'));
            && Possible(hash, ORDERLY, AfterDeaths(hash), first + second)
            && End(hash, AfterDeaths(hash), first + second) == AfterDeaths(hash).(evidence := WithIssues(hash))
            && Settled(hash, AfterDeaths(hash), first + second) == {}
  {
    hide Possible, End, Settled, Solo, ButIssues, Resumes;
    var w, a, b := AfterDeaths(hash), Passed("issues", '0'), Passed("issues", '1');
    NotThere(hash);
    DigestsDiffer();
    RecordsOver(hash, w, b);
    var w1 := w.(checkpoint := w.checkpoint["issues" := b], evidence := w.evidence["issues" := b]);
    RecordsOver(hash, w1, a);
    assert w1.evidence["issues" := a] == WithIssues(hash);
    assert w1.checkpoint["issues" := a] == w.checkpoint;
    Join(hash, ORDERLY, w, Solo(1, b), Solo(1, a));
    SolosLeavePreflight(a, b);
    RunHolds(hash, ORDERLY, w, Solo(1, b) + Solo(1, a), "preflight",
             Some(Passed("preflight", '1')), Some(Passed("preflight", '0')));
  }

  lemma RecordsOver(hash: BindHash, w: World, r: Record)
    requires 1 in w.locals && w.locals[1].Idle? && Quiet(w)
    requires r.gateId == "issues" && IsSha256(r.inputHash)
    requires "issues" in w.checkpoint && w.checkpoint["issues"].inputHash != r.inputHash
    ensures Possible(hash, ORDERLY, w, Solo(1, r))
    ensures End(hash, w, Solo(1, r)) ==
              w.(checkpoint := w.checkpoint["issues" := r], evidence := w.evidence["issues" := r])
  {
    hide Possible, End, Solo, Quiet, IsSha256;
    SoloRecords(hash, w, 1, r);
    Weaken(hash, STRICT, ORDERLY, w, Solo(1, r));
    assert w.locals[1 := Idle] == w.locals;
  }

  lemma SolosLeavePreflight(a: Record, b: Record)
    requires a.gateId == b.gateId == "issues"
    ensures var moves := Solo(1, b) + Solo(1, a);
            forall i :: 0 <= i < |moves| ==> BeginsOther(moves[i], "preflight")
  {
  }

  /**
   * Collectors in turn and in order are not enough if two of them die half-way, one of them while a
   * report is made: a run from the empty store in which it says "ready" of gates never in both files.
   */
  lemma ReadyAfterDeaths(hash: BindHash) returns (w: World, moves: seq<Move>)
    ensures Start(w) && Possible(hash, ORDERLY, w, moves)
    ensures var v := End(hash, w, moves);
            && |v.reports| == 1 && v.reports[0].ready
            && ValidRecords(v.reports[0].gates) && v.reports[0].gates !in Settled(hash, w, moves)
  {
    hide Possible, End, Settled, PreparingMoves, DyingMoves, ButIssues, Ready, ValidRecords, IsSha256, Solo;
    w := Resting(NO_GATES);
    var first, second := PreparingMoves(hash), DyingMoves();
    var third := Solo(1, Passed("issues", '1')) + Solo(1, Passed("issues", '0'));
    LacksIssues(hash);
    Weaken(hash, STRICT, ORDERLY, w, first);
    TwoDie(hash);
    Join(hash, ORDERLY, w, first, second);
    SettledJoin(hash, w, first, second);
    TwoCollect(hash);
    Join(hash, ORDERLY, w, first + second, third);
    SettledJoin(hash, w, first + second, third);
    var before, m := first + second + third, Move(3, Judge(Digest('0')));
    ReadyWithIssues(hash);
    JudgeApplies(hash, End(hash, w, before), 3, Digest('0'));
    FreeMove(hash, ORDERLY, w, before, m);
    NotThere(hash);
    NotShared(hash);
    SettledNext(hash, w, before, m);
    moves := before + [m];
  }

  /** The preflight still differs. */
  lemma NotShared(hash: BindHash)
    ensures AfterDeaths(hash).checkpoint != WithIssues(hash)
  {
    NotThere(hash);
    assert At(WithIssues(hash), "preflight") == Some(Passed("preflight", '0'));
    assert At(AfterDeaths(hash).checkpoint, "preflight") == Some(Passed("preflight", '1'));
  }
}
