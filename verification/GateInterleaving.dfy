/**
 * Collectors running side by side on the two gate files. Each file is read and replaced in
 * one step, and between any two steps of one collector the others may take theirs.
 */
module GateInterleaving {
  import opened Common
  import opened GateStore

  /**
   * Where one collector stands: idle; past the checks that admit a wheel or a soak; in the
   * soak's check of the wheel, having read the checkpoint or found it bound; in a report,
   * having read the checkpoint or judged; and in the recording of a gate, from its first read
   * to its last write.
   */
  datatype Local =
    | Idle
    | Admitted(id: string, inputHash: string, bound: Option<(string, string)>)
    | CheckingWheel(provenance: string, checkpoint: Gates)
    | Bound(provenance: string, binding: string)
    | Reporting(checkpoint: Gates)
    | Judged(record: Record)
    | HalfRead(record: Record, checkpoint: Gates)
    | Loaded(record: Record, checkpoint: Gates, evidence: Gates)
    | HalfWritten(record: Record, evidence: Gates)

  /** What a report found in both files, and the verdict it gave. */
  datatype Report = Report(gates: Gates, ready: bool)

  datatype World = World(checkpoint: Gates, evidence: Gates, locals: map<int, Local>, reports: seq<Report>)

  datatype Action =
    | AdmitWheel(inputHash: string)
    | CheckWheel(provenance: string)
    | ConfirmWheel
    | AdmitSoak(inputHash: string)
    | ReadReport
    | Judge(inputHash: string)
    | Begin(record: Record)
    | Load
    | Again
    | WriteCheckpoint
    | WriteEvidence
    | Restart

  datatype Move = Move(who: int, action: Action)

  predicate BoundDetails(hash: BindHash, d: Details) {
    && BindingDigest(hash, d.wheelSha256, d.provenance).Some?
    && d.binding == BindingDigest(hash, d.wheelSha256, d.provenance)
  }

  /** The check for a gate recorded from another input. */
  predicate Matches(checkpoint: Gates, id: string, inputHash: string) {
    id in checkpoint ==> checkpoint[id].inputHash == inputHash
  }

  /** The records a collector may come to record from where it stands; input hashes are digests. */
  predicate MayRecord(hash: BindHash, l: Local, r: Record) {
    && IsSha256(r.inputHash)
    && match l
       case Idle => !WriteOnce(r.gateId) && r.gateId != "report"
       case Admitted(id, inputHash, bound) =>
         && r.gateId == id && r.inputHash == inputHash
         && (if id == "wheel" then r.status == Pass ==> BoundDetails(hash, r.details)
             else
               && bound.Some?
               && r.details.provenance == Some(bound.value.0) && r.details.binding == Some(bound.value.1))
       case Judged(record) => r == record
       case _ => false
  }

  predicate Enabled(hash: BindHash, w: World, m: Move) {
    && m.who in w.locals
    && var l := w.locals[m.who];
    match m.action
    case AdmitWheel(inputHash) => l.Idle? && IsSha256(inputHash) && Matches(w.checkpoint, "wheel", inputHash)
    case CheckWheel(_) => l.Idle?
    case ConfirmWheel =>
      && l.CheckingWheel? && ValidRecords(l.checkpoint) && l.checkpoint == w.evidence
      && BoundWheel(hash, l.checkpoint) && l.checkpoint["wheel"].details.provenance == Some(l.provenance)
    case AdmitSoak(inputHash) => l.Bound? && IsSha256(inputHash) && Matches(w.checkpoint, "soak", inputHash)
    case ReadReport => l.Idle?
    case Judge(inputHash) =>
      l.Reporting? && ValidRecords(l.checkpoint) && l.checkpoint == w.evidence && IsSha256(inputHash)
    case Begin(r) => MayRecord(hash, l, r)
    case Load => l.HalfRead?
    case Again =>
      && l.Loaded? && Resumes(l.checkpoint, l.record) && WriteOnce(l.record.gateId)
      && !InBoth(l.checkpoint, l.evidence, l.record)
    case WriteCheckpoint => l.Loaded? && !Resumes(l.checkpoint, l.record)
    case WriteEvidence => l.HalfWritten?
    case Restart => true
  }

  /** Where a wheel or soak collector whose record was refused stands again. */
  function Readmitted(r: Record): Local {
    var d := r.details;
    Admitted(r.gateId, r.inputHash,
             if r.gateId == "soak" && d.provenance.Some? && d.binding.Some?
             then Some((d.provenance.value, d.binding.value)) else None)
  }

  /** What a move makes of the collector that takes it. */
  function Moved(hash: BindHash, w: World, m: Move): Local
    requires Enabled(hash, w, m)
  {
    var l := w.locals[m.who];
    match m.action
    case AdmitWheel(inputHash) => Admitted("wheel", inputHash, None)
    case CheckWheel(provenance) => CheckingWheel(provenance, w.checkpoint)
    case ConfirmWheel => Bound(l.provenance, l.checkpoint["wheel"].details.binding.value)
    case AdmitSoak(inputHash) => Admitted("soak", inputHash, Some((l.provenance, l.binding)))
    case ReadReport => Reporting(w.checkpoint)
    case Judge(inputHash) => Judged(ReportRecord(inputHash, Ready(hash, w.evidence)))
    case Begin(r) => HalfRead(r, w.checkpoint)
    case Load => Loaded(l.record, l.checkpoint, w.evidence)
    case Again => Readmitted(l.record)
    case WriteCheckpoint => HalfWritten(l.record, l.evidence)
    case WriteEvidence => Idle
    case Restart => Idle
  }

  function Apply(hash: BindHash, w: World, m: Move): World
    requires Enabled(hash, w, m)
  {
    var l := w.locals[m.who];
    World(if m.action.WriteCheckpoint? then l.checkpoint[l.record.gateId := l.record] else w.checkpoint,
          if m.action.WriteEvidence? then l.evidence[l.record.gateId := l.record] else w.evidence,
          w.locals[m.who := Moved(hash, w, m)],
          if m.action.Judge? then w.reports + [Report(w.evidence, Ready(hash, w.evidence))] else w.reports)
  }

  const NO_GATES: Gates := map[]

  // ------------------------------------------------------- runs and their rules

  /** A collector that will still write: it has begun a record that its checkpoint does not already settle. */
  predicate Writer(l: Local) {
    || ((l.HalfRead? || l.Loaded?) && !Resumes(l.checkpoint, l.record))
    || l.HalfWritten?
  }

  /** Admitted for a gate, and not yet done recording it. */
  predicate Pending(l: Local, id: string) {
    (l.Admitted? && l.id == id) || ((l.HalfRead? || l.Loaded?) && l.record.gateId == id)
  }

  /** The input a pending collector was admitted with. */
  function InputOf(l: Local): string {
    if l.Admitted? then l.inputHash else if l.HalfRead? || l.Loaded? then l.record.inputHash else ""
  }

  /** No collector dies between its two writes. */
  predicate Whole(w: World, m: Move) {
    m.action.Restart? && m.who in w.locals ==> !w.locals[m.who].HalfWritten?
  }

  /** A record that must be written is begun only while every other writer writes that same record. */
  ghost predicate InTurn(w: World, m: Move) {
    m.action.Begin? && !Resumes(w.checkpoint, m.action.record) ==>
      forall q :: q in w.locals && q != m.who && Writer(w.locals[q]) ==> w.locals[q].record == m.action.record
  }

  ghost predicate Admits(m: Move, id: string, inputHash: string) {
    || (m.action.AdmitWheel? && id == "wheel" && m.action.inputHash == inputHash)
    || (m.action.AdmitSoak? && id == "soak" && m.action.inputHash == inputHash)
  }

  /** A wheel or soak is admitted only while every other one pending has the same input. */
  ghost predicate InOrder(w: World, m: Move) {
    forall id, inputHash :: Admits(m, id, inputHash) ==>
      forall q :: q in w.locals && q != m.who && Pending(w.locals[q], id) ==> InputOf(w.locals[q]) == inputHash
  }

  /** Which of the three a run is held to. */
  datatype Rule = Rule(whole: bool, inTurn: bool, inOrder: bool)

  ghost predicate Allowed(rule: Rule, w: World, m: Move) {
    && (rule.whole ==> Whole(w, m))
    && (rule.inTurn ==> InTurn(w, m))
    && (rule.inOrder ==> InOrder(w, m))
  }

  const ANY := Rule(false, false, false)

  /** Crash-free, and held to nothing else. */
  const UNCUT := Rule(true, false, false)

  /** Begun in turn, whoever may die. */
  const IN_TURN := Rule(false, true, false)

  const CAREFUL := Rule(true, true, false)

  const ORDERLY := Rule(false, true, true)

  const STRICT := Rule(true, true, true)

  function Next(hash: BindHash, w: World, m: Move): World {
    if Enabled(hash, w, m) then Apply(hash, w, m) else w
  }

  function End(hash: BindHash, w: World, moves: seq<Move>): World {
    if moves == [] then w else Next(hash, End(hash, w, Init(moves)), Last(moves))
  }

  ghost predicate Possible(hash: BindHash, rule: Rule, w: World, moves: seq<Move>) {
    moves == [] ||
    (&& Possible(hash, rule, w, Init(moves))
     && Enabled(hash, End(hash, w, Init(moves)), Last(moves))
     && Allowed(rule, End(hash, w, Init(moves)), Last(moves)))
  }

  ghost predicate Start(w: World) {
    w.checkpoint == map[] && w.evidence == map[] && w.reports == [] && forall p :: p in w.locals ==> w.locals[p].Idle?
  }

  predicate AtLeast(strong: Rule, weak: Rule) {
    (weak.whole ==> strong.whole) && (weak.inTurn ==> strong.inTurn) && (weak.inOrder ==> strong.inOrder)
  }

  lemma {:induction false} Weaken(hash: BindHash, strong: Rule, weak: Rule, w: World, moves: seq<Move>)
    requires AtLeast(strong, weak) && Possible(hash, strong, w, moves)
    ensures Possible(hash, weak, w, moves)
  {
    hide Enabled, End, InTurn, InOrder, Whole;
    if moves != [] {
      Weaken(hash, strong, weak, w, Init(moves));
    }
  }

  lemma {:induction false} JoinEnds(hash: BindHash, w: World, a: seq<Move>, b: seq<Move>)
    ensures End(hash, w, a + b) == End(hash, End(hash, w, a), b)
  {
    hide Next;
    if b == [] {
      assert a + b == a;
    } else {
      JoinEnds(hash, w, a, Init(b));
      assert Init(a + b) == a + Init(b) && Last(a + b) == Last(b);
    }
  }

  lemma {:induction false} Join(hash: BindHash, rule: Rule, w: World, a: seq<Move>, b: seq<Move>)
    requires Possible(hash, rule, w, a) && Possible(hash, rule, End(hash, w, a), b)
    ensures Possible(hash, rule, w, a + b)
    ensures End(hash, w, a + b) == End(hash, End(hash, w, a), b)
  {
    hide Enabled, End, Allowed;
    JoinEnds(hash, w, a, b);
    if b == [] {
      assert a + b == a;
    } else {
      Join(hash, rule, w, a, Init(b));
      assert Init(a + b) == a + Init(b) && Last(a + b) == Last(b);
    }
  }

  lemma NoMoves(hash: BindHash, rule: Rule, w: World)
    ensures Possible(hash, rule, w, []) && End(hash, w, []) == w
  {
  }

  lemma OneMove(hash: BindHash, rule: Rule, w: World, m: Move)
    requires Enabled(hash, w, m) && Allowed(rule, w, m)
    ensures Possible(hash, rule, w, [m]) && End(hash, w, [m]) == Apply(hash, w, m)
  {
    hide Enabled, Allowed, Apply;
    assert Init([m]) == [] && Last([m]) == m;
    assert End(hash, w, []) == w;
  }

  lemma NextMove(hash: BindHash, rule: Rule, w: World, moves: seq<Move>, m: Move)
    requires Possible(hash, rule, w, moves)
    requires Enabled(hash, End(hash, w, moves), m) && Allowed(rule, End(hash, w, moves), m)
    ensures Possible(hash, rule, w, moves + [m]) && End(hash, w, moves + [m]) == Apply(hash, End(hash, w, moves), m)
  {
    hide Enabled, Allowed, Apply;
    assert Init(moves + [m]) == moves && Last(moves + [m]) == m;
  }

  // ------------------------------------------------------- one collector by itself

  ghost predicate Quiet(w: World) {
    forall q :: q in w.locals ==> !Writer(w.locals[q])
  }

  function Writes(p: int): seq<Move> {
    [Move(p, WriteCheckpoint), Move(p, WriteEvidence)]
  }

  function LoadAndWrite(p: int): seq<Move> {
    [Move(p, Load)] + Writes(p)
  }

  function Solo(p: int, r: Record): seq<Move> {
    [Move(p, Begin(r))] + LoadAndWrite(p)
  }

  /** The files replaced by one collector's copies with its record in them. */
  function Written(w: World, p: int, r: Record, checkpoint: Gates, evidence: Gates): World {
    World(checkpoint[r.gateId := r], evidence[r.gateId := r], w.locals[p := Idle], w.reports)
  }

  /** Moves that no rule restricts. */
  predicate Free(a: Action) {
    !a.AdmitWheel? && !a.AdmitSoak? && !a.Begin? && !a.Restart?
  }

  lemma FreeIsAllowed(rule: Rule, w: World, m: Move)
    requires Free(m.action)
    ensures Allowed(rule, w, m)
  {
  }

  /** A move that no rule restricts, at the end of a run. */
  lemma FreeMove(hash: BindHash, rule: Rule, w: World, moves: seq<Move>, m: Move)
    requires Possible(hash, rule, w, moves) && Enabled(hash, End(hash, w, moves), m) && Free(m.action)
    ensures Possible(hash, rule, w, moves + [m]) && End(hash, w, moves + [m]) == Apply(hash, End(hash, w, moves), m)
  {
    FreeIsAllowed(rule, End(hash, w, moves), m);
    NextMove(hash, rule, w, moves, m);
  }

  /** From the first read to the last write, whatever the collector has read. */
  lemma LoadApplies(hash: BindHash, w: World, p: int)
    requires p in w.locals && w.locals[p].HalfRead?
    ensures var m, l := Move(p, Load), w.locals[p];
            && Enabled(hash, w, m)
            && Apply(hash, w, m) == w.(locals := w.locals[p := Loaded(l.record, l.checkpoint, w.evidence)])
  {
  }

  lemma CheckpointApplies(hash: BindHash, w: World, p: int)
    requires p in w.locals && w.locals[p].Loaded? && !Resumes(w.locals[p].checkpoint, w.locals[p].record)
    ensures var m, l := Move(p, WriteCheckpoint), w.locals[p];
            && Enabled(hash, w, m)
            && Apply(hash, w, m) == w.(checkpoint := l.checkpoint[l.record.gateId := l.record],
                                       locals := w.locals[p := HalfWritten(l.record, l.evidence)])
  {
  }

  lemma EvidenceApplies(hash: BindHash, w: World, p: int)
    requires p in w.locals && w.locals[p].HalfWritten?
    ensures var m, l := Move(p, WriteEvidence), w.locals[p];
            && Enabled(hash, w, m)
            && Apply(hash, w, m) == w.(evidence := l.evidence[l.record.gateId := l.record],
                                       locals := w.locals[p := Idle])
  {
  }

  lemma BeginApplies(hash: BindHash, w: World, p: int, r: Record)
    requires p in w.locals && MayRecord(hash, w.locals[p], r)
    ensures var m := Move(p, Begin(r));
            Enabled(hash, w, m) && Apply(hash, w, m) == w.(locals := w.locals[p := HalfRead(r, w.checkpoint)])
  {
  }

  lemma TwoWrites(hash: BindHash, w: World, p: int)
    requires p in w.locals && w.locals[p].Loaded? && !Resumes(w.locals[p].checkpoint, w.locals[p].record)
    ensures var l := w.locals[p];
            && Possible(hash, STRICT, w, Writes(p))
            && End(hash, w, Writes(p)) == Written(w, p, l.record, l.checkpoint, l.evidence)
  {
    hide Possible, End, Enabled, Apply, Resumes;
    var m1, m2 := Move(p, WriteCheckpoint), Move(p, WriteEvidence);
    CheckpointApplies(hash, w, p);
    FreeIsAllowed(STRICT, w, m1);
    OneMove(hash, STRICT, w, m1);
    var w1 := End(hash, w, [m1]);
    EvidenceApplies(hash, w1, p);
    FreeMove(hash, STRICT, w, [m1], m2);
    assert [m1] + [m2] == Writes(p);
    assert w1.locals[p := Idle] == w.locals[p := Idle];
  }

  lemma LoadsAndWrites(hash: BindHash, w: World, p: int)
    requires p in w.locals && w.locals[p].HalfRead? && !Resumes(w.locals[p].checkpoint, w.locals[p].record)
    ensures var l := w.locals[p];
            && Possible(hash, STRICT, w, LoadAndWrite(p))
            && End(hash, w, LoadAndWrite(p)) == Written(w, p, l.record, l.checkpoint, w.evidence)
  {
    hide Possible, End, Enabled, Apply, Resumes, Writes;
    var m := Move(p, Load);
    LoadApplies(hash, w, p);
    FreeIsAllowed(STRICT, w, m);
    OneMove(hash, STRICT, w, m);
    var w1 := End(hash, w, [m]);
    TwoWrites(hash, w1, p);
    Join(hash, STRICT, w, [m], Writes(p));
    assert w1.locals[p := Idle] == w.locals[p := Idle];
  }

  lemma QuietBegins(hash: BindHash, w: World, p: int, r: Record)
    requires p in w.locals && MayRecord(hash, w.locals[p], r) && Quiet(w)
    ensures var m := Move(p, Begin(r));
            Enabled(hash, w, m) && Allowed(STRICT, w, m)
  {
    hide MayRecord, Writer;
  }

  /** A new record, recorded while nobody else writes, ends in both files. */
  lemma SoloRecords(hash: BindHash, w: World, p: int, r: Record)
    requires p in w.locals && MayRecord(hash, w.locals[p], r) && !Resumes(w.checkpoint, r) && Quiet(w)
    ensures Possible(hash, STRICT, w, Solo(p, r))
    ensures End(hash, w, Solo(p, r)) == Written(w, p, r, w.checkpoint, w.evidence)
  {
    hide Possible, End, Enabled, Apply, Allowed, MayRecord, Resumes, Quiet, LoadAndWrite;
    var m := Move(p, Begin(r));
    QuietBegins(hash, w, p, r);
    BeginApplies(hash, w, p, r);
    OneMove(hash, STRICT, w, m);
    var w1 := End(hash, w, [m]);
    LoadsAndWrites(hash, w1, p);
    Join(hash, STRICT, w, [m], LoadAndWrite(p));
    assert w1.locals[p := Idle] == w.locals[p := Idle];
  }

  /** No collector at work, and the files equal. */
  ghost predicate AtRest(w: World) {
    w.checkpoint == w.evidence && forall p :: p in w.locals ==> w.locals[p].Idle?
  }

  function AndWritten(w: World, r: Record): World {
    w.(checkpoint := w.checkpoint[r.gateId := r], evidence := w.evidence[r.gateId := r])
  }

  /** One collection of a gate that needs no admission, from rest to rest. */
  lemma RestRecords(hash: BindHash, w: World, p: int, r: Record)
    requires AtRest(w) && p in w.locals && MayRecord(hash, Idle, r) && !Resumes(w.checkpoint, r)
    ensures Possible(hash, STRICT, w, Solo(p, r))
    ensures End(hash, w, Solo(p, r)) == AndWritten(w, r) && AtRest(AndWritten(w, r))
  {
    hide Possible, End, MayRecord, Resumes, Solo;
    SoloRecords(hash, w, p, r);
    assert w.locals[p := Idle] == w.locals;
  }

  function WheelMoves(p: int, r: Record): seq<Move> {
    [Move(p, AdmitWheel(r.inputHash))] + Solo(p, r)
  }

  lemma RestRecordsWheel(hash: BindHash, w: World, p: int, r: Record)
    requires AtRest(w) && p in w.locals && "wheel" !in w.checkpoint
    requires r.gateId == "wheel" && IsSha256(r.inputHash) && (r.status == Pass ==> BoundDetails(hash, r.details))
    ensures Possible(hash, STRICT, w, WheelMoves(p, r))
    ensures End(hash, w, WheelMoves(p, r)) == AndWritten(w, r) && AtRest(AndWritten(w, r))
  {
    var m := Move(p, AdmitWheel(r.inputHash));
    assert Enabled(hash, w, m) && Allowed(STRICT, w, m);
    var w1 := w.(locals := w.locals[p := Admitted("wheel", r.inputHash, None)]);
    assert Apply(hash, w, m) == w1;
    hide Possible, End, Enabled, Allowed, Apply, Solo;
    OneMove(hash, STRICT, w, m);
    SoloRecords(hash, w1, p, r);
    Join(hash, STRICT, w, [m], Solo(p, r));
    assert w1.locals[p := Idle] == w.locals;
  }

  /** A record that the soak collector may make against this wheel. */
  predicate SoakFor(r: Record, wheel: Details) {
    && r.gateId == "soak" && IsSha256(r.inputHash)
    && r.details.provenance == wheel.provenance && r.details.binding == wheel.binding
  }

  /** The soak collector `p` admitted against the wheel of the checkpoint. */
  function SoakAdmitted(hash: BindHash, w: World, p: int, inputHash: string): World
    requires p in w.locals && BoundWheel(hash, w.checkpoint)
  {
    var d := w.checkpoint["wheel"].details;
    w.(locals := w.locals[p := Admitted("soak", inputHash, Some((d.provenance.value, d.binding.value)))])
  }

  function SoakAdmission(p: int, provenance: string, inputHash: string): seq<Move> {
    [Move(p, CheckWheel(provenance)), Move(p, ConfirmWheel), Move(p, AdmitSoak(inputHash))]
  }

  lemma SoakAdmits(hash: BindHash, w: World, p: int, inputHash: string)
    requires p in w.locals && w.locals[p].Idle? && w.checkpoint == w.evidence
    requires ValidRecords(w.checkpoint) && BoundWheel(hash, w.checkpoint)
    requires IsSha256(inputHash) && Matches(w.checkpoint, "soak", inputHash)
    requires forall q :: q in w.locals && q != p ==> !Pending(w.locals[q], "soak")
    ensures var d := w.checkpoint["wheel"].details;
            var moves := SoakAdmission(p, d.provenance.value, inputHash);
            && Possible(hash, STRICT, w, moves)
            && End(hash, w, moves) == SoakAdmitted(hash, w, p, inputHash)
  {
    var d := w.checkpoint["wheel"].details;
    var m1, m2, m3 := Move(p, CheckWheel(d.provenance.value)), Move(p, ConfirmWheel), Move(p, AdmitSoak(inputHash));
    var w1 := w.(locals := w.locals[p := CheckingWheel(d.provenance.value, w.checkpoint)]);
    var w2 := w.(locals := w.locals[p := Bound(d.provenance.value, d.binding.value)]);
    var w3 := w.(locals := w.locals[p := Admitted("soak", inputHash, Some((d.provenance.value, d.binding.value)))]);
    assert Enabled(hash, w, m1) && Apply(hash, w, m1) == w1;
    assert Enabled(hash, w1, m2) && Apply(hash, w1, m2) == w2;
    assert Enabled(hash, w2, m3) && Apply(hash, w2, m3) == w3 && Allowed(STRICT, w2, m3);
    hide Possible, End, Enabled, Allowed, Apply;
    FreeIsAllowed(STRICT, w, m1);
    OneMove(hash, STRICT, w, m1);
    FreeMove(hash, STRICT, w, [m1], m2);
    NextMove(hash, STRICT, w, [m1] + [m2], m3);
    assert [m1] + [m2] + [m3] == SoakAdmission(p, d.provenance.value, inputHash);
  }

  function SoakMoves(p: int, provenance: string, r: Record): seq<Move> {
    SoakAdmission(p, provenance, r.inputHash) + Solo(p, r)
  }

  /** Some digest, one for each hexadecimal digit. */
  function Digest(c: char): (s: string)
    requires '0' <= c <= '9'
    ensures IsSha256(s)
  {
    seq(64, _ => c)
  }

  lemma DigestsDiffer()
    ensures Digest('0') != Digest('1')
  {
    assert Digest('0')[0] != Digest('1')[0];
  }

  /** A passed wheel of the candidate that has the digest of `c`. */
  function PassedWheel(hash: BindHash, c: char, inputHash: string): (r: Record)
    requires '0' <= c <= '9' && IsSha256(inputHash)
    ensures BoundDetails(hash, r.details)
  {
    Record("wheel", inputHash, Pass, Details(Some(Digest(c)), Some(Digest(c)), Some(hash(Digest(c), Digest(c))), ""))
  }

  /** A passed soak of that candidate. */
  function PassedSoak(hash: BindHash, c: char, inputHash: string): (r: Record)
    requires '0' <= c <= '9' && IsSha256(inputHash)
    ensures SoakFor(r, PassedWheel(hash, c, inputHash).details)
  {
    Record("soak", inputHash, Pass, Details(None, Some(Digest(c)), Some(hash(Digest(c), Digest(c))), ""))
  }

  lemma AdmittedSoakRecords(hash: BindHash, w: World, p: int, r: Record)
    requires p in w.locals && BoundWheel(hash, w.checkpoint) && "soak" !in w.checkpoint && Quiet(w)
    requires SoakFor(r, w.checkpoint["wheel"].details)
    ensures var w1 := SoakAdmitted(hash, w, p, r.inputHash);
            MayRecord(hash, w1.locals[p], r) && !Resumes(w1.checkpoint, r) && Quiet(w1)
  {
  }

  lemma AdmittedSoakSolo(hash: BindHash, w: World, p: int, r: Record)
    requires p in w.locals && w.locals[p].Idle? && BoundWheel(hash, w.checkpoint) && "soak" !in w.checkpoint && Quiet(w)
    requires SoakFor(r, w.checkpoint["wheel"].details)
    ensures var w1 := SoakAdmitted(hash, w, p, r.inputHash);
            Possible(hash, STRICT, w1, Solo(p, r)) && End(hash, w1, Solo(p, r)) == AndWritten(w, r)
  {
    hide Possible, End, Solo, MayRecord, Quiet, BoundWheel, Resumes;
    var w1 := SoakAdmitted(hash, w, p, r.inputHash);
    AdmittedSoakRecords(hash, w, p, r);
    SoloRecords(hash, w1, p, r);
    assert w1.locals[p := Idle] == w.locals;
  }

  /** A soak recorded beside collectors that are not writing, against the wheel in both files. */
  lemma RecordsSoak(hash: BindHash, w: World, p: int, r: Record)
    requires p in w.locals && w.locals[p].Idle? && w.checkpoint == w.evidence
    requires ValidRecords(w.checkpoint) && BoundWheel(hash, w.checkpoint)
    requires "soak" !in w.checkpoint && Quiet(w)
    requires forall q :: q in w.locals && q != p ==> !Pending(w.locals[q], "soak")
    requires SoakFor(r, w.checkpoint["wheel"].details)
    ensures var moves := SoakMoves(p, w.checkpoint["wheel"].details.provenance.value, r);
            Possible(hash, STRICT, w, moves) && End(hash, w, moves) == AndWritten(w, r)
  {
    hide Possible, End, Solo, SoakAdmission, Pending, Quiet, AndWritten, IsSha256;
    SoakAdmits(hash, w, p, r.inputHash);
    AdmittedSoakSolo(hash, w, p, r);
    Join(hash, STRICT, w, SoakAdmission(p, w.checkpoint["wheel"].details.provenance.value, r.inputHash), Solo(p, r));
  }

  // ------------------------------------------------------- every interleaving

  /** Every content the checkpoint has had in a run. */
  ghost function Checkpoints(hash: BindHash, w: World, moves: seq<Move>): set<Gates> {
    (if moves == [] then {} else Checkpoints(hash, w, Init(moves))) + {End(hash, w, moves).checkpoint}
  }

  ghost function Evidences(hash: BindHash, w: World, moves: seq<Move>): set<Gates> {
    (if moves == [] then {} else Evidences(hash, w, Init(moves))) + {End(hash, w, moves).evidence}
  }

  ghost predicate InSome(contents: set<Gates>, id: string, r: Record) {
    exists gates :: gates in contents && id in gates && gates[id] == r
  }

  /** A record saying "ready" goes back to a report that said so. */
  ghost predicate Backed(reports: seq<Report>, r: Record) {
    r.gateId == "report" && r.details.other == "ready" ==> exists i :: 0 <= i < |reports| && reports[i].ready
  }

  /** What a collector holds was read from files as they once were. */
  ghost predicate Sourced(l: Local, checkpoints: set<Gates>, evidences: set<Gates>) {
    match l
    case CheckingWheel(_, checkpoint) => checkpoint in checkpoints
    case Reporting(checkpoint) => checkpoint in checkpoints
    case HalfRead(_, checkpoint) => checkpoint in checkpoints
    case Loaded(_, checkpoint, evidence) => checkpoint in checkpoints && evidence in evidences
    case HalfWritten(r, evidence) => InSome(checkpoints, r.gateId, r) && evidence in evidences
    case _ => true
  }

  ghost predicate LocalBacked(reports: seq<Report>, l: Local) {
    && (l.Admitted? ==> l.id != "report")
    && (l.Judged? || l.HalfRead? || l.Loaded? || l.HalfWritten? ==> Backed(reports, l.record))
  }

  /** The invariant of all runs. */
  ghost predicate Kept(hash: BindHash, w: World, checkpoints: set<Gates>, evidences: set<Gates>) {
    && w.checkpoint in checkpoints && w.evidence in evidences
    && (forall p :: p in w.locals ==>
          Sourced(w.locals[p], checkpoints, evidences) && LocalBacked(w.reports, w.locals[p]))
    && (forall gates, id :: gates in evidences && id in gates ==> InSome(checkpoints, id, gates[id]))
    && (forall gates, id :: gates in checkpoints && id in gates ==> Backed(w.reports, gates[id]))
    && (forall i :: 0 <= i < |w.reports| ==> Honest(hash, w.reports[i], checkpoints, evidences))
  }

  ghost predicate Honest(hash: BindHash, r: Report, checkpoints: set<Gates>, evidences: set<Gates>) {
    && r.gates in checkpoints && r.gates in evidences
    && (r.ready <==> Ready(hash, r.gates))
  }

  /** The collector that moves, afterwards. */
  lemma MoverKeeps(hash: BindHash, w: World, m: Move, checkpoints: set<Gates>, evidences: set<Gates>)
    requires Enabled(hash, w, m) && Kept(hash, w, checkpoints, evidences)
    ensures var v := Apply(hash, w, m);
            && Sourced(v.locals[m.who], checkpoints + {v.checkpoint}, evidences + {v.evidence})
            && LocalBacked(v.reports, v.locals[m.who])
  {
    var v := Apply(hash, w, m);
    assert Sourced(w.locals[m.who], checkpoints, evidences) && LocalBacked(w.reports, w.locals[m.who]);
    if m.action.WriteCheckpoint? {
      assert v.checkpoint in checkpoints + {v.checkpoint};
    }
    if m.action.Judge? && Ready(hash, w.evidence) {
      assert v.reports[|w.reports|].ready;
    }
  }

  /** The files and the reports, afterwards. */
  lemma FilesKeep(hash: BindHash, w: World, m: Move, checkpoints: set<Gates>, evidences: set<Gates>)
    requires Enabled(hash, w, m) && Kept(hash, w, checkpoints, evidences)
    ensures var v := Apply(hash, w, m);
            var moreC, moreE := checkpoints + {v.checkpoint}, evidences + {v.evidence};
            && w.reports <= v.reports
            && (forall id :: id in v.evidence ==> InSome(moreC, id, v.evidence[id]))
            && (forall id :: id in v.checkpoint ==> Backed(w.reports, v.checkpoint[id]))
            && (forall i :: 0 <= i < |v.reports| ==> Honest(hash, v.reports[i], moreC, moreE))
  {
    hide Backed;
    var v := Apply(hash, w, m);
    var l := w.locals[m.who];
    assert Sourced(l, checkpoints, evidences) && LocalBacked(w.reports, l);
    forall id | id in v.evidence ensures InSome(checkpoints + {v.checkpoint}, id, v.evidence[id]) {
      assert InSome(checkpoints, id, v.evidence[id]);
    }
  }

  /** What holds of a task with respect to some contents and reports holds with respect to more of them. */
  lemma MoreKeeps(l: Local, reports: seq<Report>, more: seq<Report>,
                  checkpoints: set<Gates>, evidences: set<Gates>, moreC: set<Gates>, moreE: set<Gates>)
    requires reports <= more && checkpoints <= moreC && evidences <= moreE
    ensures Sourced(l, checkpoints, evidences) ==> Sourced(l, moreC, moreE)
    ensures LocalBacked(reports, l) ==> LocalBacked(more, l)
    ensures forall r :: Backed(reports, r) ==> Backed(more, r)
  {
    assert forall i :: 0 <= i < |reports| ==> more[i] == reports[i];
  }

  lemma StepKeeps(hash: BindHash, w: World, m: Move, checkpoints: set<Gates>, evidences: set<Gates>)
    requires Enabled(hash, w, m) && Kept(hash, w, checkpoints, evidences)
    ensures var v := Apply(hash, w, m);
            Kept(hash, v, checkpoints + {v.checkpoint}, evidences + {v.evidence})
  {
    MoverKeeps(hash, w, m, checkpoints, evidences);
    FilesKeep(hash, w, m, checkpoints, evidences);
    hide Enabled, Sourced, LocalBacked, Honest, Backed;
    var v := Apply(hash, w, m);
    var moreC, moreE := checkpoints + {v.checkpoint}, evidences + {v.evidence};
    forall p | p in v.locals ensures Sourced(v.locals[p], moreC, moreE) && LocalBacked(v.reports, v.locals[p]) {
      if p != m.who {
        MoreKeeps(w.locals[p], w.reports, v.reports, checkpoints, evidences, moreC, moreE);
      }
    }
    MoreKeeps(Idle, w.reports, v.reports, checkpoints, evidences, moreC, moreE);
    forall gates, id | gates in moreE && id in gates ensures InSome(moreC, id, gates[id]) {
      if gates in evidences {
        assert InSome(checkpoints, id, gates[id]);
      }
    }
  }

  lemma {:induction false} RunKeeps(hash: BindHash, w: World, moves: seq<Move>)
    requires Start(w) && Possible(hash, ANY, w, moves)
    ensures Kept(hash, End(hash, w, moves), Checkpoints(hash, w, moves), Evidences(hash, w, moves))
  {
    hide Enabled, Apply;
    if moves != [] {
      RunKeeps(hash, w, Init(moves));
      StepKeeps(hash, End(hash, w, Init(moves)), Last(moves),
                Checkpoints(hash, w, Init(moves)), Evidences(hash, w, Init(moves)));
    }
  }

  /**
   * In every interleaving, crashes included: what the evidence holds was in the checkpoint
   * before; the gates a report judged were the whole checkpoint at one moment and the whole
   * evidence at one moment; and a recorded "ready" goes back to a report that said so.
   */
  lemma EveryInterleaving(hash: BindHash, w: World, moves: seq<Move>)
    requires Start(w) && Possible(hash, ANY, w, moves)
    ensures var v, checkpoints := End(hash, w, moves), Checkpoints(hash, w, moves);
            && (forall id :: id in v.evidence ==>
                  InSome(checkpoints, id, v.evidence[id]) && Backed(v.reports, v.evidence[id]))
            && forall i :: 0 <= i < |v.reports| ==>
                 && v.reports[i].gates in checkpoints && v.reports[i].gates in Evidences(hash, w, moves)
                 && (v.reports[i].ready <==> AllPass(v.reports[i].gates) && BoundPair(hash, v.reports[i].gates))
  {
    hide Backed;
    RunKeeps(hash, w, moves);
    var v, checkpoints := End(hash, w, moves), Checkpoints(hash, w, moves);
    assert forall i :: 0 <= i < |v.reports| ==> Honest(hash, v.reports[i], checkpoints, Evidences(hash, w, moves));
    forall id | id in v.evidence ensures InSome(checkpoints, id, v.evidence[id]) && Backed(v.reports, v.evidence[id]) {
      assert InSome(checkpoints, id, v.evidence[id]);
      var gates :| gates in checkpoints && id in gates && gates[id] == v.evidence[id];
    }
  }
}
