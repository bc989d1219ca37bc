/**
 * What a report's "equal files" mean when other collectors write between its two reads: with
 * collectors that begin in turn both files once held what it judged; otherwise they need not have.
 */
module GateReports {
  import opened Common
  import opened GateStore
  import opened GateInterleaving
  import opened GateOverlap

  /** Every content that both files have had at one moment of a run. */
  ghost function Settled(hash: BindHash, w: World, moves: seq<Move>): set<Gates> {
    (if moves == [] then {} else Settled(hash, w, Init(moves))) + Shared(End(hash, w, moves))
  }

  ghost function Shared(w: World): set<Gates> {
    if w.checkpoint == w.evidence then {w.checkpoint} else {}
  }

  lemma LastSettled(hash: BindHash, w: World, moves: seq<Move>)
    ensures Shared(End(hash, w, moves)) <= Settled(hash, w, moves)
  {
  }

  lemma SettledNext(hash: BindHash, w: World, moves: seq<Move>, m: Move)
    ensures Settled(hash, w, moves + [m]) == Settled(hash, w, moves) + Shared(End(hash, w, moves + [m]))
  {
    hide Shared, End;
    assert Init(moves + [m]) == moves;
  }

  /** Two contents say the same of one gate. */
  predicate Same(a: Gates, b: Gates, id: string) {
    (id in a <==> id in b) && (id in a && id in b ==> a[id] == b[id])
  }

  lemma SameEverywhere(a: Gates, b: Gates)
    requires forall id :: Same(a, b, id)
    ensures a == b
  {
    forall id ensures (id in a <==> id in b) && (id in a && id in b ==> a[id] == b[id]) {
      assert Same(a, b, id);
    }
  }

  // ------------------------------------------------------- collectors in step

  /**
   * `gates` is not the evidence and cannot become it unless both files hold it: where the files
   * differ, but for a write under way, the evidence differs from `gates` as well.
   */
  ghost predicate Missed(gates: Gates, w: World) {
    && gates != w.evidence
    && forall id :: Same(w.evidence, w.checkpoint, id) || HalfWrittenAt(w, id) || !Same(gates, w.evidence, id)
  }

  lemma EvidenceMisses(hash: BindHash, w: World, m: Move, gates: Gates)
    requires InStep(w) && Missed(gates, w) && Enabled(hash, w, m) && m.action.WriteEvidence?
    ensures gates in Shared(Apply(hash, w, m)) || Missed(gates, Apply(hash, w, m))
  {
    EvidenceInStep(hash, w, m);
    var v, id := Apply(hash, w, m), w.locals[m.who].record.gateId;
    forall k ensures Same(v.evidence, v.checkpoint, k) || !Same(gates, v.evidence, k) {
      if k != id {
        assert !HalfWrittenAt(w, k);
        assert Same(w.evidence, w.checkpoint, k) || !Same(gates, w.evidence, k);
      }
    }
    if gates == v.evidence {
      SameEverywhere(v.evidence, v.checkpoint);
    }
  }

  lemma MoveMisses(hash: BindHash, w: World, m: Move, gates: Gates)
    requires InStep(w) && Missed(gates, w) && Enabled(hash, w, m) && Whole(w, m)
    ensures gates in Shared(Apply(hash, w, m)) || Missed(gates, Apply(hash, w, m))
  {
    hide InStep, Enabled, Same;
    if m.action.WriteEvidence? {
      EvidenceMisses(hash, w, m, gates);
    } else {
      var v := Apply(hash, w, m);
      assert v.evidence == w.evidence;
      forall id ensures Same(v.evidence, v.checkpoint, id) || HalfWrittenAt(v, id) || !Same(gates, v.evidence, id) {
        StillUnderWay(hash, w, m, id);
      }
    }
  }

  lemma StillUnderWay(hash: BindHash, w: World, m: Move, id: string)
    requires InStep(w) && Enabled(hash, w, m) && Whole(w, m) && !m.action.WriteEvidence?
    ensures var v := Apply(hash, w, m);
            && (HalfWrittenAt(w, id) ==> HalfWrittenAt(v, id))
            && (Same(w.evidence, w.checkpoint, id) ==> Same(v.evidence, v.checkpoint, id) || HalfWrittenAt(v, id))
  {
    hide InStep;
    var v := Apply(hash, w, m);
    if p :| p in w.locals && w.locals[p].HalfWritten? && w.locals[p].record.gateId == id {
      StaysHalfWritten(hash, w, m, p);
      assert v.locals[p].HalfWritten?;
    }
    if m.action.WriteCheckpoint? {
      CheckpointInStep(hash, w, m);
      assert v.locals[m.who].HalfWritten?;
    }
  }

  // ------------------------------------------------------- one collector out of step

  /** A record `b` begun by `q` when all others had the record `a` in both files already: `before` is what they held. */
  datatype Late = Late(q: int, before: Gates, a: Record, b: Record) {
    function After(): Gates {
      before[b.gateId := b]
    }
  }

  /** Whichever file the writer replaces, it puts `r` and so `content` there. */
  ghost predicate Puts(l: Local, r: Record, content: Gates) {
    && (l.HalfRead? || l.Loaded? || l.HalfWritten?) && l.record == r
    && (l.HalfRead? || l.Loaded? ==> l.checkpoint[r.gateId := r] == content)
    && (l.Loaded? || l.HalfWritten? ==> l.evidence[r.gateId := r] == content)
  }

  ghost predicate Old(l: Local, o: Late) {
    Puts(l, o.a, o.before) && (l.HalfWritten? || o.a.gateId == o.b.gateId)
  }

  ghost predicate New(w: World, l: Local, o: Late) {
    && Puts(l, o.b, o.After())
    && (if l.HalfWritten? then w.checkpoint == o.After() else w.checkpoint == w.evidence == o.before)
  }

  predicate Beginner(w: World, o: Late) {
    o.q in w.locals && Writer(w.locals[o.q]) && w.locals[o.q].record == o.b
  }

  /** Each file holds what it held or has the new record; every writer but `q` puts back what it held. */
  ghost predicate Behind(w: World, o: Late) {
    && o.a.gateId in o.before && o.before[o.a.gateId] == o.a && o.a != o.b && !Resumes(o.before, o.b)
    && w.checkpoint in {o.before, o.After()} && w.evidence in {o.before, o.After()}
    && (forall p :: p in w.locals && Writer(w.locals[p]) ==>
          Old(w.locals[p], o) || (p == o.q && New(w, w.locals[p], o)))
    && (Beginner(w, o) ==>
          forall p :: p in w.locals && p != o.q && Writer(w.locals[p]) ==> w.locals[p].HalfWritten?)
  }

  ghost predicate OldLeft(w: World, o: Late) {
    exists p :: p in w.locals && Writer(w.locals[p]) && w.locals[p].record == o.a
  }

  lemma QuietMoverBehind(hash: BindHash, w: World, m: Move, o: Late)
    requires Behind(w, o) && Enabled(hash, w, m) && Whole(w, m)
    requires !m.action.WriteCheckpoint? && !m.action.WriteEvidence? && !m.action.Begin?
    ensures var v, l, l' := Apply(hash, w, m), w.locals[m.who], Apply(hash, w, m).locals[m.who];
            && v.checkpoint == w.checkpoint && v.evidence == w.evidence
            && (l.HalfWritten? ==> l' == l)
            && (Writer(l') ==> Writer(l) && l'.record == l.record && (l.HalfWritten? <==> l'.HalfWritten?))
            && (Writer(l') ==> Old(l', o) || (m.who == o.q && New(v, l', o)))
  {
    var l := w.locals[m.who];
    assert Writer(l) ==> Old(l, o) || New(w, l, o);
  }

  lemma QuietBehind(hash: BindHash, w: World, m: Move, o: Late)
    requires Behind(w, o) && Enabled(hash, w, m) && Whole(w, m)
    requires !m.action.WriteCheckpoint? && !m.action.WriteEvidence? && !m.action.Begin?
    ensures Behind(Apply(hash, w, m), o)
  {
    hide Old, New, Writer, MayRecord, BoundWheel;
    QuietMoverBehind(hash, w, m, o);
    var v := Apply(hash, w, m);
    forall p | p in v.locals && Writer(v.locals[p])
      ensures Old(v.locals[p], o) || (p == o.q && New(v, v.locals[p], o))
    {
      if p != m.who {
        SameNew(w, v, w.locals[p], o);
      }
    }
  }

  /** While one of the old writers is left, only its record can be begun, and only over the new one. */
  lemma OnlyOldBegins(hash: BindHash, w: World, m: Move, o: Late)
    requires Behind(w, o) && OldLeft(w, o) && Enabled(hash, w, m) && m.action.Begin? && InTurn(w, m)
    requires !Resumes(w.checkpoint, m.action.record)
    ensures m.action.record == o.a && o.a.gateId == o.b.gateId && w.checkpoint == o.After() && !Beginner(w, o)
    ensures forall r, copy :: r == o.a && copy == w.checkpoint ==> Old(HalfRead(r, copy), o)
  {
    assert !Writer(w.locals[m.who]);
    var p :| p in w.locals && Writer(w.locals[p]) && w.locals[p].record == o.a;
    assert o.a.gateId == o.b.gateId ==> o.After()[o.a.gateId := o.a] == o.before;
  }

  lemma BeginBehind(hash: BindHash, w: World, m: Move, o: Late)
    requires Behind(w, o) && OldLeft(w, o) && Enabled(hash, w, m) && m.action.Begin? && InTurn(w, m)
    ensures Behind(Apply(hash, w, m), o)
  {
    hide Old, New, MayRecord, InTurn, OldLeft;
    var v, r := Apply(hash, w, m), m.action.record;
    assert !Writer(w.locals[m.who]) by {
      NotYetWriter(hash, w.locals[m.who], r);
    }
    assert v.locals[m.who] == HalfRead(r, w.checkpoint);
    if !Resumes(w.checkpoint, r) {
      OnlyOldBegins(hash, w, m, o);
    }
    forall p | p in v.locals && Writer(v.locals[p])
      ensures Old(v.locals[p], o) || (p == o.q && New(v, v.locals[p], o))
    {
      if p != m.who {
        SameNew(w, v, w.locals[p], o);
      }
    }
  }

  lemma NotYetWriter(hash: BindHash, l: Local, r: Record)
    requires MayRecord(hash, l, r)
    ensures !Writer(l)
  {
  }

  lemma SameNew(w: World, v: World, l: Local, o: Late)
    requires v.checkpoint == w.checkpoint && v.evidence == w.evidence
    ensures New(w, l, o) ==> New(v, l, o)
  {
  }

  lemma WriteBehind(hash: BindHash, w: World, m: Move, o: Late)
    requires Behind(w, o) && OldLeft(w, o) && Enabled(hash, w, m)
    requires (m.action.WriteCheckpoint? || m.action.WriteEvidence?)
    ensures Behind(Apply(hash, w, m), o)
  {
    var v, l, l' := Apply(hash, w, m), w.locals[m.who], Apply(hash, w, m).locals[m.who];
    assert Writer(l);
    assert Writer(l') ==> l'.HalfWritten? && l'.record == l.record;
    if Old(l, o) {
      assert m.action.WriteCheckpoint? ==> v.checkpoint == o.before && Old(l', o) && !Beginner(w, o);
      assert m.action.WriteEvidence? ==> v.evidence == o.before;
    } else {
      assert New(w, l, o);
      assert m.action.WriteCheckpoint? ==> v.checkpoint == o.After() && New(v, l', o);
      assert m.action.WriteEvidence? ==> v.evidence == o.After();
    }
  }

  /** When the last old writer is done, everyone is in step again. */
  lemma BackInStep(w: World, o: Late)
    requires Behind(w, o) && !OldLeft(w, o)
    ensures InStep(w)
  {
    forall p | p in w.locals && Writer(w.locals[p]) ensures p == o.q && Current(w, w.locals[p]) {
      var l, id := w.locals[p], o.b.gateId;
      if !l.HalfWritten? {
        KeptBySetting(l.checkpoint, w.checkpoint, id, o.b);
      }
      if !l.HalfRead? {
        KeptBySetting(l.evidence, w.evidence, id, o.b);
      }
    }
  }

  lemma KeptBySetting(a: Gates, b: Gates, id: string, r: Record)
    requires a[id := r] == b[id := r]
    ensures OthersKept(a, b, id)
  {
    forall k | k != id ensures (k in a <==> k in b) && (k in a && k in b ==> b[k] == a[k]) {
      assert k in a <==> k in a[id := r];
      assert k in b <==> k in b[id := r];
    }
  }

  // ------------------------------------------------------- what a report may judge

  /** `gates` is not the evidence, and what is not the evidence cannot become it unless both files hold it. */
  ghost predicate LateMissed(gates: Gates, w: World, o: Late) {
    && gates != w.evidence
    && (gates == w.checkpoint || (gates == o.After() && w.checkpoint == o.before && !Beginner(w, o)))
  }

  /** Only a writer makes the new record's collector one. */
  lemma BeginnerStays(hash: BindHash, w: World, m: Move, o: Late)
    requires Behind(w, o) && OldLeft(w, o) && Enabled(hash, w, m) && InTurn(w, m)
    requires Beginner(Apply(hash, w, m), o)
    ensures Beginner(w, o)
  {
    hide Old, New;
    if m.action.Begin? && m.who == o.q {
      NotYetWriter(hash, w.locals[m.who], m.action.record);
    }
  }

  /** What a writer does to the files. */
  lemma WrittenBehind(hash: BindHash, w: World, m: Move, o: Late)
    requires Behind(w, o) && Enabled(hash, w, m) && (m.action.WriteCheckpoint? || m.action.WriteEvidence?)
    ensures var v, content := Apply(hash, w, m), if w.locals[m.who].record == o.a then o.before else o.After();
            if m.action.WriteCheckpoint? then v.checkpoint == content && v.evidence == w.evidence
            else v.evidence == content && v.checkpoint == w.checkpoint
    ensures var l := w.locals[m.who];
            && (l.record != o.a ==> m.who == o.q && New(w, l, o) && Beginner(w, o))
            && (m.action.WriteCheckpoint? && l.record == o.a ==> !Beginner(w, o))
  {
    var l := w.locals[m.who];
    assert Writer(l);
    assert Old(l, o) || New(w, l, o);
  }

  lemma MoveLateMisses(hash: BindHash, w: World, m: Move, o: Late, gates: Gates)
    requires Behind(w, o) && OldLeft(w, o) && LateMissed(gates, w, o)
    requires Enabled(hash, w, m) && Allowed(CAREFUL, w, m)
    ensures gates in Shared(Apply(hash, w, m)) || LateMissed(gates, Apply(hash, w, m), o)
  {
    hide Enabled, OldLeft, Beginner, InTurn;
    var v := Apply(hash, w, m);
    if Beginner(v, o) {
      BeginnerStays(hash, w, m, o);
    }
    if m.action.WriteCheckpoint? || m.action.WriteEvidence? {
      WrittenBehind(hash, w, m, o);
    }
  }

  lemma LateThenMissed(w: World, o: Late, gates: Gates)
    requires Behind(w, o) && LateMissed(gates, w, o)
    ensures Missed(gates, w)
  {
    var id := o.b.gateId;
    assert o.After()[id] == o.b;
    assert !Same(o.before, o.After(), id);
  }

  /** In step, or one collector out of step and old writers left. */
  ghost predicate Trackable(w: World, late: Option<Late>) {
    InStep(w) || (late.Some? && Behind(w, late.value) && OldLeft(w, late.value))
  }

  ghost predicate Untaken(gates: Gates, w: World, late: Option<Late>) {
    if InStep(w) then Missed(gates, w) else late.Some? && LateMissed(gates, w, late.value)
  }

  lemma MoveBehind(hash: BindHash, w: World, m: Move, o: Late)
    requires Behind(w, o) && OldLeft(w, o) && Enabled(hash, w, m) && Allowed(CAREFUL, w, m)
    ensures Behind(Apply(hash, w, m), o)
  {
    hide Behind, OldLeft, Enabled, Apply, Whole, InTurn;
    if m.action.WriteCheckpoint? || m.action.WriteEvidence? {
      WriteBehind(hash, w, m, o);
    } else if m.action.Begin? {
      BeginBehind(hash, w, m, o);
    } else {
      QuietBehind(hash, w, m, o);
    }
  }

  lemma MoveTracks(hash: BindHash, w: World, m: Move, late: Option<Late>, gates: Gates)
    requires Trackable(w, late) && Enabled(hash, w, m) && Allowed(CAREFUL, w, m)
    ensures var v := Apply(hash, w, m);
            && Trackable(v, late)
            && (Untaken(gates, w, late) ==> gates in Shared(v) || Untaken(gates, v, late))
  {
    hide InStep, Behind, OldLeft, Enabled, Apply, InTurn, Whole, Shared, Missed, LateMissed;
    var v := Apply(hash, w, m);
    if InStep(w) {
      MoveInStep(hash, w, m);
      if Missed(gates, w) {
        MoveMisses(hash, w, m, gates);
      }
    } else {
      MoveBehind(hash, w, m, late.value);
      if !OldLeft(v, late.value) {
        BackInStep(v, late.value);
      }
      if LateMissed(gates, w, late.value) {
        MoveLateMisses(hash, w, m, late.value, gates);
        if LateMissed(gates, v, late.value) {
          LateThenMissed(v, late.value, gates);
        }
      }
    }
  }

  lemma {:induction false} RunTracks(hash: BindHash, w: World, moves: seq<Move>, late: Option<Late>, gates: Gates)
    requires Trackable(w, late) && Possible(hash, CAREFUL, w, moves)
    requires gates in Shared(w) || Untaken(gates, w, late)
    ensures var v := End(hash, w, moves);
            Trackable(v, late) && (gates in Settled(hash, w, moves) || Untaken(gates, v, late))
  {
    hide Trackable, Untaken, Enabled, Apply, Allowed, Shared;
    if moves != [] {
      RunTracks(hash, w, Init(moves), late, gates);
      MoveTracks(hash, End(hash, w, Init(moves)), Last(moves), late, gates);
    }
  }

  /**
   * A report that reads the checkpoint in `w` and finds the same evidence after `moves`
   * judges what both files shared.
   */
  ghost predicate Trustworthy(hash: BindHash, w: World, moves: seq<Move>) {
    End(hash, w, moves).evidence == w.checkpoint ==> w.checkpoint in Settled(hash, w, moves)
  }

  lemma TrackableIsTrustworthy(hash: BindHash, w: World, moves: seq<Move>, late: Option<Late>)
    requires Trackable(w, late) && Possible(hash, CAREFUL, w, moves)
    ensures Trustworthy(hash, w, moves) && Trackable(End(hash, w, moves), late)
  {
    hide Possible, End, Settled, InStep, Behind, OldLeft, Trackable;
    assert w.checkpoint in Shared(w) || Untaken(w.checkpoint, w, late) by {
      CheckpointUntaken(w, late);
    }
    RunTracks(hash, w, moves, late, w.checkpoint);
  }

  lemma CheckpointUntaken(w: World, late: Option<Late>)
    requires Trackable(w, late)
    ensures w.checkpoint in Shared(w) || Untaken(w.checkpoint, w, late)
  {
    hide InStep, Behind, OldLeft, HalfWrittenAt;
  }

  // ------------------------------------------------------- reports

  /** A report by `p` that has read the checkpoint. */
  function Reads(w: World, p: int): World
    requires p in w.locals
  {
    w.(locals := w.locals[p := Reporting(w.checkpoint)])
  }

  predicate ByOthers(p: int, moves: seq<Move>) {
    forall i :: 0 <= i < |moves| ==> moves[i].who != p
  }

  lemma {:induction false} StaysPut(hash: BindHash, w: World, p: int, moves: seq<Move>)
    requires p in w.locals && ByOthers(p, moves)
    ensures p in End(hash, w, moves).locals && End(hash, w, moves).locals[p] == w.locals[p]
  {
    hide Enabled;
    if moves != [] {
      StaysPut(hash, w, p, Init(moves));
    }
  }

  /**
   * A report may judge iff the evidence is what it read of the checkpoint and all of that is well
   * formed; it judges that; and both files have held it since the report began iff it is trustworthy so.
   */
  lemma WhatReportsJudge(hash: BindHash, w: World, p: int, moves: seq<Move>, inputHash: string)
    requires p in w.locals && w.locals[p].Idle? && ByOthers(p, moves)
    ensures Enabled(hash, w, Move(p, ReadReport)) && Apply(hash, w, Move(p, ReadReport)) == Reads(w, p)
    ensures var w1, v, m := Reads(w, p), End(hash, Reads(w, p), moves), Move(p, Judge(inputHash));
            && (Enabled(hash, v, m) <==> v.evidence == w.checkpoint
                                         && ValidRecords(w.checkpoint) && IsSha256(inputHash))
            && (Enabled(hash, v, m) ==>
                  var report := Last(Apply(hash, v, m).reports);
                  && report == Report(w.checkpoint, Ready(hash, w.checkpoint))
                  && (report.gates in Settled(hash, w1, moves) <==> Trustworthy(hash, w1, moves)))
  {
    hide End, Settled, Ready, ValidRecords, IsSha256;
    StaysPut(hash, Reads(w, p), p, moves);
  }

  /**
   * Collectors that begin in turn, any of which may have died before, and none of which dies
   * half-way while the report is made: what the report judges was at one moment between its two
   * reads the whole content of both files.
   */
  lemma InStepIsTrustworthy(hash: BindHash, w: World, p: int, moves: seq<Move>, inputHash: string)
    requires InStep(w) && p in w.locals && w.locals[p].Idle? && ByOthers(p, moves)
    requires Possible(hash, CAREFUL, Reads(w, p), moves)
    ensures Trustworthy(hash, Reads(w, p), moves)
    ensures var v, m := End(hash, Reads(w, p), moves), Move(p, Judge(inputHash));
            Enabled(hash, v, m) ==> Last(Apply(hash, v, m).reports).gates in Settled(hash, Reads(w, p), moves)
  {
    hide InStep, Possible, End, Settled, Enabled, Apply;
    WhatReportsJudge(hash, w, p, moves, inputHash);
    assert InTurn(w, Move(p, ReadReport));
    MoveInStep(hash, w, Move(p, ReadReport));
    TrackableIsTrustworthy(hash, Reads(w, p), moves, None);
  }

  /** What the evidence holds and what reports have judged was shared once. */
  ghost predicate AllSettled(w: World, settled: set<Gates>) {
    w.evidence in settled && forall i :: 0 <= i < |w.reports| ==> w.reports[i].gates in settled
  }

  lemma MoveSettles(hash: BindHash, w: World, m: Move, settled: set<Gates>)
    requires Agreeing(w) && AllSettled(w, settled) && Enabled(hash, w, m)
    ensures AllSettled(Apply(hash, w, m), settled + Shared(Apply(hash, w, m)))
  {
    hide Agreeing;
    if m.action.WriteEvidence? {
      EvidenceAgrees(hash, w, m);
    }
  }

  lemma {:induction false} RunSettles(hash: BindHash, w: World, moves: seq<Move>)
    requires Start(w) && Possible(hash, CAREFUL, w, moves)
    ensures Agreeing(End(hash, w, moves)) && AllSettled(End(hash, w, moves), Settled(hash, w, moves))
  {
    if moves == [] {
    } else {
      hide Agreeing, Enabled, Apply, Allowed, AllSettled, Shared;
      RunSettles(hash, w, Init(moves));
      MoveAgrees(hash, End(hash, w, Init(moves)), Last(moves));
      MoveSettles(hash, End(hash, w, Init(moves)), Last(moves), Settled(hash, w, Init(moves)));
    }
  }

  /** So every report of a careful run judged what was at one moment the whole content of both files. */
  lemma ReportsSettled(hash: BindHash, w: World, moves: seq<Move>)
    requires Start(w) && Possible(hash, CAREFUL, w, moves)
    ensures var reports := End(hash, w, moves).reports;
            forall i :: 0 <= i < |reports| ==> reports[i].gates in Settled(hash, w, moves)
  {
    RunSettles(hash, w, moves);
  }

  // ------------------------------------------------------- exactly which starts keep reports trustworthy

  /** Whenever, after `w`, a report reads and judges, it can be trusted. */
  ghost predicate TrustworthyAfter(hash: BindHash, w: World) {
    forall a, b :: Possible(hash, CAREFUL, w, a) && Possible(hash, CAREFUL, End(hash, w, a), b) ==>
                     Trustworthy(hash, End(hash, w, a), b)
  }

  lemma TrackableAfter(hash: BindHash, w: World, late: Option<Late>)
    requires Trackable(w, late)
    ensures TrustworthyAfter(hash, w)
  {
    hide Trackable, Possible, End, Trustworthy;
    forall a, b | Possible(hash, CAREFUL, w, a) && Possible(hash, CAREFUL, End(hash, w, a), b)
      ensures Trustworthy(hash, End(hash, w, a), b)
    {
      TrackableIsTrustworthy(hash, w, a, late);
      TrackableIsTrustworthy(hash, End(hash, w, a), b, late);
    }
  }

  /** The files are equal, and whoever still writes another record has only the evidence left to write. */
  ghost predicate OthersDone(w: World, q: int, b: Record) {
    && w.checkpoint == w.evidence
    && forall o :: o in w.locals && o != q && Writer(w.locals[o]) && w.locals[o].record != b ==>
          w.locals[o].HalfWritten?
  }

  /** A start out of turn beside such writers. */
  lemma LateStart(hash: BindHash, w: World, q: int, b: Record) returns (o: Late)
    requires Agreeing(w) && q in w.locals && MayRecord(hash, w.locals[q], b) && !Resumes(w.checkpoint, b)
    requires !InTurn(w, Move(q, Begin(b))) && OthersDone(w, q, b)
    ensures var v := w.(locals := w.locals[q := HalfRead(b, w.checkpoint)]);
            Behind(v, o) && OldLeft(v, o)
  {
    hide MayRecord, Resumes;
    var p :| p in w.locals && p != q && Writer(w.locals[p]) && w.locals[p].record != b;
    var a, c := w.locals[p].record, w.checkpoint;
    o := Late(q, c, a, b);
    var v := w.(locals := w.locals[q := HalfRead(b, c)]);
    assert Current(w, w.locals[p]);
    assert New(v, v.locals[q], o);
    forall r | r in w.locals && r != q && Writer(w.locals[r]) ensures Old(w.locals[r], o) {
      OldIsDone(w, r);
    }
    assert Writer(v.locals[p]);
  }

  lemma OldIsDone(w: World, p: int)
    requires Agreeing(w) && p in w.locals && w.locals[p].HalfWritten? && w.checkpoint == w.evidence
    ensures Puts(w.locals[p], w.locals[p].record, w.checkpoint)
  {
    var l := w.locals[p];
    assert Current(w, l) && Writer(l);
    SameOnceSet(l.evidence, w.checkpoint, l.record.gateId, l.record);
  }

  // ------------------------------------------------------- and no other start does

  /** Moves from world to world. */
  ghost predicate Turns(hash: BindHash, rule: Rule, worlds: seq<World>, moves: seq<Move>) {
    && |worlds| == |moves| + 1
    && forall i :: 0 <= i < |moves| ==>
         && Enabled(hash, worlds[i], moves[i]) && Allowed(rule, worlds[i], moves[i])
         && Apply(hash, worlds[i], moves[i]) == worlds[i + 1]
  }

  lemma {:induction false} TurnsRun(hash: BindHash, rule: Rule, worlds: seq<World>, moves: seq<Move>)
    requires Turns(hash, rule, worlds, moves)
    ensures Possible(hash, rule, worlds[0], moves) && End(hash, worlds[0], moves) == Last(worlds)
    ensures forall gates :: gates in Settled(hash, worlds[0], moves) ==>
              exists i :: 0 <= i < |worlds| && worlds[i].checkpoint == worlds[i].evidence == gates
  {
    hide Enabled, Apply, Allowed;
    if moves != [] {
      TurnsRun(hash, rule, Init(worlds), Init(moves));
      assert Init(worlds)[0] == worlds[0] && Last(Init(worlds)) == worlds[|moves| - 1];
      forall gates | gates in Settled(hash, worlds[0], moves)
        ensures exists i :: 0 <= i < |worlds| && worlds[i].checkpoint == worlds[i].evidence == gates
      {
        if gates in Settled(hash, worlds[0], Init(moves)) {
          var i :| 0 <= i < |Init(worlds)| && Init(worlds)[i].checkpoint == Init(worlds)[i].evidence == gates;
          assert worlds[i] == Init(worlds)[i];
        } else {
          assert worlds[|moves|].checkpoint == worlds[|moves|].evidence == gates;
        }
      }
    }
  }

  lemma TwoTurns(hash: BindHash, w0: World, w1: World, w2: World, m1: Move, m2: Move)
    requires Enabled(hash, w0, m1) && Free(m1.action) && Apply(hash, w0, m1) == w1
    requires Enabled(hash, w1, m2) && Free(m2.action) && Apply(hash, w1, m2) == w2
    ensures Possible(hash, STRICT, w0, [m1, m2]) && End(hash, w0, [m1, m2]) == w2
    ensures forall gates :: gates in Settled(hash, w0, [m1, m2]) ==> gates in Shared(w0) + Shared(w1) + Shared(w2)
  {
    hide Enabled, Apply, Allowed, Possible, End, Settled;
    FreeIsAllowed(STRICT, w0, m1);
    FreeIsAllowed(STRICT, w1, m2);
    TurnsRun(hash, STRICT, [w0, w1, w2], [m1, m2]);
    assert [w0, w1, w2][0] == w0;
  }

  /**
   * The second collector has written the checkpoint when a report reads it;
   * then the first does, and the second finishes.
   */
  lemma OverwrittenBetween(hash: BindHash, w: World, p: int, q: int)
    requires p in w.locals && q in w.locals && p != q && w.locals[p].Loaded? && w.locals[q].HalfRead?
    requires !Resumes(w.locals[p].checkpoint, w.locals[p].record) && !Resumes(w.checkpoint, w.locals[q].record)
    requires w.checkpoint == w.evidence == w.locals[q].checkpoint && w.locals[p].record != w.locals[q].record
    requires OthersKept(w.locals[p].checkpoint, w.checkpoint, w.locals[p].record.gateId)
    ensures var a, b := [Move(q, Load), Move(q, WriteCheckpoint)], [Move(p, WriteCheckpoint), Move(q, WriteEvidence)];
            && Possible(hash, STRICT, w, a) && Possible(hash, STRICT, End(hash, w, a), b)
            && !Trustworthy(hash, End(hash, w, a), b)
  {
    var l, r, c := w.locals[p], w.locals[q].record, w.checkpoint;
    var w1 := w.(locals := w.locals[q := Loaded(r, c, c)]);
    var w2 := w1.(checkpoint := c[r.gateId := r], locals := w1.locals[q := HalfWritten(r, c)]);
    var w3 := w2.(checkpoint := l.checkpoint[l.record.gateId := l.record],
                  locals := w2.locals[p := HalfWritten(l.record, l.evidence)]);
    var w4 := w3.(evidence := c[r.gateId := r], locals := w3.locals[q := Idle]);
    NewContent(c, l.checkpoint, l.record, r);
    hide Possible, End, Enabled, Apply, Settled, Resumes;
    LoadApplies(hash, w, q);
    CheckpointApplies(hash, w1, q);
    TwoTurns(hash, w, w1, w2, Move(q, Load), Move(q, WriteCheckpoint));
    CheckpointApplies(hash, w2, p);
    EvidenceApplies(hash, w3, q);
    TwoTurns(hash, w2, w3, w4, Move(p, WriteCheckpoint), Move(q, WriteEvidence));
  }

  lemma NewContent(c: Gates, copy: Gates, l: Record, r: Record)
    requires !Resumes(c, r) && l != r && OthersKept(copy, c, l.gateId)
    ensures c[r.gateId := r] != c && c[r.gateId := r] != copy[l.gateId := l]
  {
    assert c[r.gateId := r][r.gateId] == r;
  }

  /** A report reads while the files differ; the checkpoint is overwritten before the evidence catches up. */
  lemma OverwrittenBehind(hash: BindHash, w: World, p: int, q: int)
    requires p in w.locals && q in w.locals && p != q && w.locals[p].HalfWritten? && w.locals[q].HalfRead?
    requires var l := w.locals[p];
             && w.checkpoint != w.evidence && OthersKept(l.evidence, w.checkpoint, l.record.gateId)
             && l.record.gateId in w.checkpoint && w.checkpoint[l.record.gateId] == l.record
    requires w.locals[q].checkpoint == w.checkpoint && !Resumes(w.checkpoint, w.locals[q].record)
    ensures var b := [Move(q, Load), Move(q, WriteCheckpoint)] + [Move(p, WriteEvidence)];
            Possible(hash, STRICT, w, b) && !Trustworthy(hash, w, b)
  {
    var l, r, c := w.locals[p], w.locals[q].record, w.checkpoint;
    var w1 := w.(locals := w.locals[q := Loaded(r, c, w.evidence)]);
    var w2 := w1.(checkpoint := c[r.gateId := r], locals := w1.locals[q := HalfWritten(r, w.evidence)]);
    var first, last := [Move(q, Load), Move(q, WriteCheckpoint)], Move(p, WriteEvidence);
    SameOnceSet(l.evidence, c, l.record.gateId, l.record);
    assert c[r.gateId := r] != c by {
      assert c[r.gateId := r][r.gateId] == r;
    }
    hide Possible, End, Enabled, Apply, Settled, Resumes;
    LoadApplies(hash, w, q);
    CheckpointApplies(hash, w1, q);
    TwoTurns(hash, w, w1, w2, Move(q, Load), Move(q, WriteCheckpoint));
    EvidenceApplies(hash, w2, p);
    FreeMove(hash, STRICT, w, first, last);
    SettledNext(hash, w, first, last);
  }

  /** Any other start out of turn, and a report can judge what the files never shared since it began. */
  lemma OverlapMisleads(hash: BindHash, w: World, q: int, b: Record)
    requires Agreeing(w) && q in w.locals && MayRecord(hash, w.locals[q], b) && !Resumes(w.checkpoint, b)
    requires !InTurn(w, Move(q, Begin(b))) && !OthersDone(w, q, b)
    ensures !TrustworthyAfter(hash, w.(locals := w.locals[q := HalfRead(b, w.checkpoint)]))
  {
    hide TrustworthyAfter, Agreeing, InTurn, Resumes;
    if w.checkpoint != w.evidence {
      OverlapMisleadsBehind(hash, w, q, b);
    } else {
      var p :| p in w.locals && p != q && Writer(w.locals[p]) && w.locals[p].record != b && !w.locals[p].HalfWritten?;
      OverlapMisleadsBetween(hash, w, p, q, b);
    }
  }

  lemma OverlapMisleadsBehind(hash: BindHash, w: World, q: int, b: Record)
    requires Agreeing(w) && q in w.locals && MayRecord(hash, w.locals[q], b) && !Resumes(w.checkpoint, b)
    requires w.checkpoint != w.evidence
    ensures !TrustworthyAfter(hash, w.(locals := w.locals[q := HalfRead(b, w.checkpoint)]))
  {
    var w' := w.(locals := w.locals[q := HalfRead(b, w.checkpoint)]);
    var o :| o in w.locals && w.locals[o].HalfWritten?;
    assert o != q;
    assert Current(w, w.locals[o]) && Writer(w.locals[o]);
    UpToDate(w, o);
    hide Possible, End, Trustworthy, Agreeing, Resumes, MayRecord;
    OverwrittenBehind(hash, w', o, q);
    var moves := [Move(q, Load), Move(q, WriteCheckpoint)] + [Move(o, WriteEvidence)];
    Weaken(hash, STRICT, CAREFUL, w', moves);
    NoMoves(hash, CAREFUL, w');
    Misled(hash, w', [], moves);
  }

  lemma OverlapMisleadsBetween(hash: BindHash, w: World, p: int, q: int, b: Record)
    requires Agreeing(w) && q in w.locals && MayRecord(hash, w.locals[q], b) && !Resumes(w.checkpoint, b)
    requires p in w.locals && p != q && Writer(w.locals[p]) && w.locals[p].record != b && !w.locals[p].HalfWritten?
    requires w.checkpoint == w.evidence
    ensures !TrustworthyAfter(hash, w.(locals := w.locals[q := HalfRead(b, w.checkpoint)]))
  {
    assert Current(w, w.locals[p]);
    hide Possible, End, Trustworthy, Agreeing, Enabled, Apply, Resumes, MayRecord;
    var w' := w.(locals := w.locals[q := HalfRead(b, w.checkpoint)]);
    var l := w.locals[p];
    var load := if l.HalfRead? then [Move(p, Load)] else [];
    var w1 := if l.HalfRead? then w'.(locals := w'.locals[p := Loaded(l.record, l.checkpoint, w.evidence)]) else w';
    NoMoves(hash, CAREFUL, w');
    if l.HalfRead? {
      LoadApplies(hash, w', p);
      FreeIsAllowed(CAREFUL, w', Move(p, Load));
      OneMove(hash, CAREFUL, w', Move(p, Load));
    }
    OverwrittenBetween(hash, w1, p, q);
    var first, second := [Move(q, Load), Move(q, WriteCheckpoint)], [Move(p, WriteCheckpoint), Move(q, WriteEvidence)];
    Weaken(hash, STRICT, CAREFUL, w1, first);
    Weaken(hash, STRICT, CAREFUL, End(hash, w1, first), second);
    Join(hash, CAREFUL, w', load, first);
    Misled(hash, w', load + first, second);
  }

  lemma Misled(hash: BindHash, w: World, a: seq<Move>, b: seq<Move>)
    requires Possible(hash, CAREFUL, w, a) && Possible(hash, CAREFUL, End(hash, w, a), b)
    requires !Trustworthy(hash, End(hash, w, a), b)
    ensures !TrustworthyAfter(hash, w)
  {
  }

  /**
   * From any state that careful collectors reach: beginning a new record keeps every later report
   * trustworthy iff it is begun in turn, or the files are equal and whoever still writes another
   * record has only the evidence left to write.
   */
  lemma StartIsTrustworthyIff(hash: BindHash, w: World, q: int, b: Record)
    requires Agreeing(w) && q in w.locals && MayRecord(hash, w.locals[q], b) && !Resumes(w.checkpoint, b)
    ensures var m := Move(q, Begin(b));
            && Enabled(hash, w, m)
            && (InTurn(w, m) || OthersDone(w, q, b) <==> TrustworthyAfter(hash, Apply(hash, w, m)))
  {
    hide InStep, OthersDone, MayRecord, Resumes, InTurn, TrustworthyAfter, Enabled, Apply;
    var m := Move(q, Begin(b));
    BeginApplies(hash, w, q, b);
    if InTurn(w, m) {
      MoveInStep(hash, w, m);
      TrackableAfter(hash, Apply(hash, w, m), None);
    } else if OthersDone(w, q, b) {
      var late := LateStart(hash, w, q, b);
      TrackableAfter(hash, Apply(hash, w, m), Some(late));
    } else {
      OverlapMisleads(hash, w, q, b);
    }
  }
}
