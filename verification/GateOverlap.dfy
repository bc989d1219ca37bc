/** Exactly which overlaps of crash-free collectors can leave the two gate files different. */
module GateOverlap {
  import opened Common
  import opened GateStore
  import opened GateInterleaving

  ghost predicate OneRecord(w: World) {
    forall p, q :: p in w.locals && q in w.locals && Writer(w.locals[p]) && Writer(w.locals[q]) ==>
      w.locals[p].record == w.locals[q].record
  }

  /** What a writer has read is what the files hold, but for its own gate. */
  ghost predicate Current(w: World, l: Local) {
    Writer(l) ==>
      var id := l.record.gateId;
      && (l.HalfRead? || l.Loaded? ==> OthersKept(l.checkpoint, w.checkpoint, id))
      && (l.Loaded? || l.HalfWritten? ==> OthersKept(l.evidence, w.evidence, id))
      && (l.HalfWritten? ==> id in w.checkpoint && w.checkpoint[id] == l.record)
  }

  /**
   * All writers write one record, and none has outdated copies.
   * Collectors that begin in turn keep this even if some die.
   */
  ghost predicate InStep(w: World) {
    OneRecord(w) && forall p :: p in w.locals ==> Current(w, w.locals[p])
  }

  ghost predicate HalfWrittenAt(w: World, id: string) {
    exists p :: p in w.locals && w.locals[p].HalfWritten? && w.locals[p].record.gateId == id
  }

  ghost predicate SomeHalfWritten(w: World) {
    exists p :: p in w.locals && w.locals[p].HalfWritten?
  }

  /** In step, and the files differ only where a collector is between its two writes. */
  ghost predicate Agreeing(w: World) {
    && InStep(w)
    && (w.checkpoint != w.evidence ==>
          exists p :: p in w.locals && w.locals[p].HalfWritten?
                    && OthersKept(w.evidence, w.checkpoint, w.locals[p].record.gateId))
  }

  /** The files are equal, or a collector is between its two writes and the second makes them equal. */
  ghost predicate Healing(w: World) {
    w.checkpoint == w.evidence ||
    exists p :: p in w.locals && w.locals[p].HalfWritten?
                && w.locals[p].evidence[w.locals[p].record.gateId := w.locals[p].record] == w.checkpoint
  }

  lemma SameOnceSet(a: Gates, b: Gates, id: string, r: Record)
    requires OthersKept(a, b, id) && id in b && b[id] == r
    ensures a[id := r] == b
  {
  }

  lemma SetOne(a: Gates, b: Gates, id: string, r: Record)
    requires OthersKept(a, b, id)
    ensures OthersKept(a[id := r], b, id) && OthersKept(a, b[id := r], id) && a[id := r] == b[id := r]
  {
  }

  /** Where the files agree so, a writer's copies agree with the checkpoint but for its own gate. */
  lemma UpToDate(w: World, p: int)
    requires Agreeing(w) && p in w.locals && Writer(w.locals[p])
    ensures var l := w.locals[p];
            && OthersKept(w.evidence, w.checkpoint, l.record.gateId)
            && (l.Loaded? || l.HalfWritten? ==> OthersKept(l.evidence, w.checkpoint, l.record.gateId))
  {
    assert Current(w, w.locals[p]);
  }

  lemma AgreeingHeals(w: World)
    requires Agreeing(w)
    ensures Healing(w)
    ensures !SomeHalfWritten(w) ==> w.checkpoint == w.evidence
  {
    if w.checkpoint != w.evidence {
      var p :| p in w.locals && w.locals[p].HalfWritten?;
      var l := w.locals[p];
      assert Current(w, l);
      UpToDate(w, p);
      SameOnceSet(l.evidence, w.checkpoint, l.record.gateId, l.record);
    }
  }

  /** The collector that takes a move writing neither file. */
  lemma QuietMover(hash: BindHash, w: World, m: Move)
    requires InStep(w) && Enabled(hash, w, m) && InTurn(w, m)
    requires !m.action.WriteCheckpoint? && !m.action.WriteEvidence?
    ensures var v := Apply(hash, w, m);
            && v.checkpoint == w.checkpoint && v.evidence == w.evidence
            && Current(v, v.locals[m.who])
            && (Writer(v.locals[m.who]) ==>
                  forall q :: q in w.locals && q != m.who && Writer(w.locals[q]) ==>
                                w.locals[q].record == v.locals[m.who].record)
  {
    var l, l' := w.locals[m.who], Apply(hash, w, m).locals[m.who];
    assert Current(w, l);
    assert m.action.Begin? || (Writer(l') ==> Writer(l) && l'.record == l.record);
  }

  lemma QuietMoveInStep(hash: BindHash, w: World, m: Move)
    requires InStep(w) && Enabled(hash, w, m) && InTurn(w, m)
    requires !m.action.WriteCheckpoint? && !m.action.WriteEvidence?
    ensures InStep(Apply(hash, w, m))
  {
    hide Writer, Enabled;
    QuietMover(hash, w, m);
    var v := Apply(hash, w, m);
    forall p | p in v.locals ensures Current(v, v.locals[p]) {
      if p != m.who {
        assert Current(w, w.locals[p]);
      }
    }
  }

  /** A checkpoint written in step is the old one with the record in it; an evidence file likewise. */
  lemma CheckpointInStep(hash: BindHash, w: World, m: Move)
    requires InStep(w) && Enabled(hash, w, m) && m.action.WriteCheckpoint?
    ensures var v, l := Apply(hash, w, m), w.locals[m.who];
            && InStep(v) && v.evidence == w.evidence && v.checkpoint == w.checkpoint[l.record.gateId := l.record]
            && v.locals[m.who].HalfWritten? && v.locals[m.who].record == l.record
            && (SomeHalfWritten(w) ==> v.checkpoint == w.checkpoint)
  {
    var v, l := Apply(hash, w, m), w.locals[m.who];
    var id := l.record.gateId;
    assert Current(w, l) && Writer(l);
    SetOne(l.checkpoint, w.checkpoint, id, l.record);
    forall p | p in v.locals ensures Current(v, v.locals[p]) {
      if p != m.who {
        assert Current(w, w.locals[p]);
      }
    }
    if p :| p in w.locals && w.locals[p].HalfWritten? {
      assert Current(w, w.locals[p]) && Writer(w.locals[p]);
    }
  }

  lemma EvidenceInStep(hash: BindHash, w: World, m: Move)
    requires InStep(w) && Enabled(hash, w, m) && m.action.WriteEvidence?
    ensures var v, l := Apply(hash, w, m), w.locals[m.who];
            && InStep(v) && v.checkpoint == w.checkpoint && v.evidence == w.evidence[l.record.gateId := l.record]
            && l.record.gateId in v.checkpoint && v.checkpoint[l.record.gateId] == l.record
  {
    var v, l := Apply(hash, w, m), w.locals[m.who];
    assert Current(w, l) && Writer(l);
    SetOne(l.evidence, w.evidence, l.record.gateId, l.record);
    forall p | p in v.locals ensures Current(v, v.locals[p]) {
      if p != m.who {
        assert Current(w, w.locals[p]);
      }
    }
  }

  lemma MoveInStep(hash: BindHash, w: World, m: Move)
    requires InStep(w) && Enabled(hash, w, m) && InTurn(w, m)
    ensures InStep(Apply(hash, w, m))
  {
    hide InStep, Enabled, Apply, InTurn;
    if m.action.WriteCheckpoint? {
      CheckpointInStep(hash, w, m);
    } else if m.action.WriteEvidence? {
      EvidenceInStep(hash, w, m);
    } else {
      QuietMoveInStep(hash, w, m);
    }
  }

  /** Collectors that begin in turn stay in step, wherever any of them die. */
  lemma {:induction false} RunInStep(hash: BindHash, w: World, moves: seq<Move>)
    requires InStep(w) && Possible(hash, IN_TURN, w, moves)
    ensures InStep(End(hash, w, moves))
  {
    hide InStep, Enabled, Apply, InTurn;
    if moves != [] {
      RunInStep(hash, w, Init(moves));
      MoveInStep(hash, End(hash, w, Init(moves)), Last(moves));
    }
  }

  lemma StaysHalfWritten(hash: BindHash, w: World, m: Move, p: int)
    requires Enabled(hash, w, m) && Whole(w, m) && !m.action.WriteEvidence?
    requires p in w.locals && w.locals[p].HalfWritten?
    ensures Apply(hash, w, m).locals[p] == w.locals[p]
  {
  }

  /** The second write makes the files equal. */
  lemma EvidenceAgrees(hash: BindHash, w: World, m: Move)
    requires Agreeing(w) && Enabled(hash, w, m) && m.action.WriteEvidence?
    ensures Agreeing(Apply(hash, w, m))
    ensures Apply(hash, w, m).checkpoint == Apply(hash, w, m).evidence
  {
    hide InStep, Apply;
    EvidenceInStep(hash, w, m);
    UpToDate(w, m.who);
    SameOnceSet(w.evidence, w.checkpoint, w.locals[m.who].record.gateId, w.locals[m.who].record);
  }

  lemma MoveAgrees(hash: BindHash, w: World, m: Move)
    requires Agreeing(w) && Enabled(hash, w, m) && Allowed(CAREFUL, w, m)
    ensures Agreeing(Apply(hash, w, m))
  {
    hide InStep, Enabled, Apply, Whole, InTurn;
    MoveInStep(hash, w, m);
    if m.action.WriteEvidence? {
      EvidenceAgrees(hash, w, m);
    } else {
      FirstWriteAgrees(hash, w, m);
    }
  }

  lemma FirstWriteAgrees(hash: BindHash, w: World, m: Move)
    requires Agreeing(w) && Enabled(hash, w, m) && Whole(w, m) && !m.action.WriteEvidence? && InStep(Apply(hash, w, m))
    ensures Agreeing(Apply(hash, w, m))
  {
    hide InStep;
    var v := Apply(hash, w, m);
    if w.checkpoint != w.evidence {
      var p :| p in w.locals && w.locals[p].HalfWritten?
               && OthersKept(w.evidence, w.checkpoint, w.locals[p].record.gateId);
      StaysHalfWritten(hash, w, m, p);
    }
    if m.action.WriteCheckpoint? {
      CheckpointInStep(hash, w, m);
      assert v.locals[m.who].HalfWritten?;
    }
  }

  lemma {:induction false} RunAgrees(hash: BindHash, w: World, moves: seq<Move>)
    requires Agreeing(w) && Possible(hash, CAREFUL, w, moves)
    ensures Agreeing(End(hash, w, moves))
  {
    hide Agreeing, Enabled, Apply, Allowed;
    if moves != [] {
      RunAgrees(hash, w, Init(moves));
      MoveAgrees(hash, End(hash, w, Init(moves)), Last(moves));
    }
  }

  /**
   * Crash-free collectors, each beginning a new record only while every other writer writes the
   * same one, leave equal files whenever none is between its writes. Reports and resuming
   * collectors overlap with anything.
   */
  lemma CarefulRunsAgree(hash: BindHash, w: World, moves: seq<Move>)
    requires Start(w) && Possible(hash, CAREFUL, w, moves)
    ensures var v := End(hash, w, moves);
            Healing(v) && (!SomeHalfWritten(v) ==> v.checkpoint == v.evidence)
  {
    RunAgrees(hash, w, moves);
    AgreeingHeals(End(hash, w, moves));
  }

  // ------------------------------------------------------- and no other start is safe

  /** Both loaded: the second collector writes between the writes of the first. */
  function Crossing(p: int, q: int): seq<Move> {
    [Move(p, WriteCheckpoint)] + Writes(q) + [Move(p, WriteEvidence)]
  }

  /** The moves by which the writer `p` and `q`, just begun, finish so that the files part. */
  function Parting(p: int, q: int, l: Local): seq<Move> {
    if l.HalfRead? then [Move(p, Load), Move(q, Load)] + Crossing(p, q)
    else if l.Loaded? then [Move(q, Load)] + Crossing(p, q)
    else LoadAndWrite(q) + [Move(p, WriteEvidence)]
  }

  lemma StaysParted(checkpoint: Gates, evidence: Gates, a: Record, b: Record)
    requires a != b && (b.gateId in evidence && a.gateId != b.gateId ==> evidence[b.gateId] != b)
    ensures checkpoint[b.gateId := b] != evidence[a.gateId := a]
  {
    assert checkpoint[b.gateId := b][b.gateId] == b;
    assert b.gateId in evidence[a.gateId := a] ==> evidence[a.gateId := a][b.gateId] != b;
  }

  /** A writer's copy of the evidence lacks what a collector that begins does not find in the checkpoint. */
  lemma LacksNew(w: World, p: int, b: Record)
    requires Agreeing(w) && p in w.locals && Writer(w.locals[p])
    requires !Resumes(w.checkpoint, b) && w.locals[p].record != b
    ensures var l := w.locals[p];
            w.checkpoint[b.gateId := b] != EvidenceCopy(w, l)[l.record.gateId := l.record]
  {
    UpToDate(w, p);
    StaysParted(w.checkpoint, EvidenceCopy(w, w.locals[p]), w.locals[p].record, b);
  }

  /** The evidence as a writer has read it, or will if it reads it now. */
  function EvidenceCopy(w: World, l: Local): Gates
    requires Writer(l)
  {
    if l.HalfRead? then w.evidence else l.evidence
  }

  /** A collector with another record begins beside the writer `p`, and they finish as above. */
  ghost predicate Parted(w: World, p: int, q: int, b: Record, v: World)
    requires p in w.locals && Writer(w.locals[p])
  {
    var l := w.locals[p];
    && v.checkpoint == w.checkpoint[b.gateId := b]
    && v.evidence == EvidenceCopy(w, l)[l.record.gateId := l.record]
    && v.locals == w.locals[q := Idle][p := Idle]
  }

  lemma PartedForGood(w: World, p: int, q: int, b: Record, v: World)
    requires Agreeing(w) && p in w.locals && Writer(w.locals[p])
    requires !Resumes(w.checkpoint, b) && w.locals[p].record != b && Parted(w, p, q, b, v)
    ensures !Healing(v)
  {
    LacksNew(w, p, b);
    forall o | o in v.locals && v.locals[o].HalfWritten?
      ensures v.locals[o].evidence[v.locals[o].record.gateId := v.locals[o].record] != v.checkpoint
    {
      LacksNew(w, o, b);
    }
  }

  lemma CrossingParts(hash: BindHash, w: World, p: int, q: int)
    requires p in w.locals && q in w.locals && p != q && w.locals[p].Loaded? && w.locals[q].Loaded?
    requires !Resumes(w.locals[p].checkpoint, w.locals[p].record)
    requires !Resumes(w.locals[q].checkpoint, w.locals[q].record)
    ensures Possible(hash, STRICT, w, Crossing(p, q))
    ensures var v, a, b := End(hash, w, Crossing(p, q)), w.locals[p], w.locals[q];
            && v.checkpoint == b.checkpoint[b.record.gateId := b.record]
            && v.evidence == a.evidence[a.record.gateId := a.record]
            && v.locals == w.locals[q := Idle][p := Idle]
  {
    hide Possible, End, Enabled, Apply, Resumes, Writes;
    var m1, m2 := Move(p, WriteCheckpoint), Move(p, WriteEvidence);
    CheckpointApplies(hash, w, p);
    FreeIsAllowed(STRICT, w, m1);
    OneMove(hash, STRICT, w, m1);
    var w1 := End(hash, w, [m1]);
    TwoWrites(hash, w1, q);
    Join(hash, STRICT, w, [m1], Writes(q));
    var w2 := End(hash, w, [m1] + Writes(q));
    EvidenceApplies(hash, w2, p);
    FreeMove(hash, STRICT, w, [m1] + Writes(q), m2);
    assert w2.locals[p := Idle] == w.locals[q := Idle][p := Idle];
  }

  lemma LoadFirst(hash: BindHash, w: World, p: int, rest: seq<Move>)
    requires p in w.locals && w.locals[p].HalfRead?
    requires Possible(hash, STRICT, Read(w, p), rest)
    ensures Possible(hash, STRICT, w, [Move(p, Load)] + rest)
    ensures End(hash, w, [Move(p, Load)] + rest) == End(hash, Read(w, p), rest)
  {
    hide Possible, End, Enabled, Apply;
    var m := Move(p, Load);
    LoadApplies(hash, w, p);
    FreeIsAllowed(STRICT, w, m);
    OneMove(hash, STRICT, w, m);
    Join(hash, STRICT, w, [m], rest);
  }

  /** `p` has read the evidence too. */
  function Read(w: World, p: int): World
    requires p in w.locals && w.locals[p].HalfRead?
  {
    var l := w.locals[p];
    w.(locals := w.locals[p := Loaded(l.record, l.checkpoint, w.evidence)])
  }

  /** One start out of turn, and the files can part for good without a crash. */
  lemma OverlapParts(hash: BindHash, w: World, p: int, q: int, b: Record)
    requires Agreeing(w) && p in w.locals && q in w.locals && p != q && Writer(w.locals[p])
    requires MayRecord(hash, w.locals[q], b) && !Resumes(w.checkpoint, b) && w.locals[p].record != b
    ensures var w', moves := w.(locals := w.locals[q := HalfRead(b, w.checkpoint)]), Parting(p, q, w.locals[p]);
            Possible(hash, STRICT, w', moves) && Parted(w, p, q, b, End(hash, w', moves))
  {
    hide Possible, End, Enabled, Apply, Resumes, Writes, LoadAndWrite, Crossing, MayRecord, Agreeing;
    var l := w.locals[p];
    var w' := w.(locals := w.locals[q := HalfRead(b, w.checkpoint)]);
    if l.HalfWritten? {
      LoadsAndWrites(hash, w', q);
      var v := End(hash, w', LoadAndWrite(q));
      EvidenceApplies(hash, v, p);
      FreeMove(hash, STRICT, w', LoadAndWrite(q), Move(p, WriteEvidence));
      assert v.locals[p := Idle] == w.locals[q := Idle][p := Idle];
    } else if l.Loaded? {
      var w1 := Read(w', q);
      CrossingParts(hash, w1, p, q);
      LoadFirst(hash, w', q, Crossing(p, q));
      assert w1.locals[q := Idle][p := Idle] == w.locals[q := Idle][p := Idle];
    } else {
      var w1 := Read(w', p);
      var w2 := Read(w1, q);
      CrossingParts(hash, w2, p, q);
      LoadFirst(hash, w1, q, Crossing(p, q));
      LoadFirst(hash, w', p, [Move(q, Load)] + Crossing(p, q));
      assert [Move(p, Load)] + ([Move(q, Load)] + Crossing(p, q)) == Parting(p, q, l);
      assert w2.locals[q := Idle][p := Idle] == w.locals[q := Idle][p := Idle];
    }
  }

  /**
   * A new record may be begun safely exactly in turn. From any state that careful collectors
   * reach: if every other writer writes this same record, the files are equal or healing
   * ever after, however careful collectors go on; if one does not, some careful
   * continuation leaves them different with nobody left to heal them.
   */
  lemma StartIsSafeIff(hash: BindHash, w: World, q: int, b: Record)
    requires Agreeing(w) && q in w.locals && MayRecord(hash, w.locals[q], b) && !Resumes(w.checkpoint, b)
    ensures var m := Move(q, Begin(b));
            && Enabled(hash, w, m)
            && (InTurn(w, m) <==>
                forall moves :: Possible(hash, CAREFUL, Apply(hash, w, m), moves) ==>
                                  Healing(End(hash, Apply(hash, w, m), moves)))
  {
    var m := Move(q, Begin(b));
    BeginApplies(hash, w, q, b);
    var w' := Apply(hash, w, m);
    if InTurn(w, m) {
      hide *;
      MoveAgrees(hash, w, m);
      forall moves | Possible(hash, CAREFUL, w', moves) ensures Healing(End(hash, w', moves)) {
        RunAgrees(hash, w', moves);
        AgreeingHeals(End(hash, w', moves));
      }
    } else {
      var p :| p in w.locals && p != q && Writer(w.locals[p]) && w.locals[p].record != b;
      hide Possible, End, Enabled, Apply, Healing, Agreeing, MayRecord, Resumes, Parting;
      OverlapParts(hash, w, p, q, b);
      var moves := Parting(p, q, w.locals[p]);
      Weaken(hash, STRICT, CAREFUL, w', moves);
      PartedForGood(w, p, q, b, End(hash, w', moves));
    }
  }

  /**
   * A crash-free run from the empty store that ends, nobody at work, with one record in the
   * checkpoint and another in the evidence: the second collector begins out of turn.
   */
  lemma FilesPart(hash: BindHash, a: Record, b: Record) returns (w: World, moves: seq<Move>)
    requires MayRecord(hash, Idle, a) && MayRecord(hash, Idle, b) && a != b
    ensures Start(w) && Possible(hash, UNCUT, w, moves)
    ensures var v := End(hash, w, moves);
            && v.checkpoint == map[b.gateId := b] && v.evidence == map[a.gateId := a]
            && forall p :: p in v.locals ==> v.locals[p].Idle?
  {
    var none := NO_GATES;
    w := World(none, none, map[1 := Idle, 2 := Idle], []);
    var m1, m2 := Move(1, Begin(a)), Move(2, Begin(b));
    var w1 := w.(locals := w.locals[1 := HalfRead(a, none)]);
    var w2 := w1.(locals := w1.locals[2 := HalfRead(b, none)]);
    var rest := Parting(1, 2, w1.locals[1]);
    assert Start(w) && Agreeing(w1) && Allowed(UNCUT, w, m1) && Allowed(UNCUT, w1, m2);
    assert none[a.gateId := a] == map[a.gateId := a] && none[b.gateId := b] == map[b.gateId := b];
    assert w1.locals[2 := Idle][1 := Idle] == map[1 := Idle, 2 := Idle];
    hide Possible, End, Enabled, Apply, MayRecord, Agreeing, Parting, Allowed, Start;
    BeginApplies(hash, w, 1, a);
    OneMove(hash, UNCUT, w, m1);
    BeginApplies(hash, w1, 2, b);
    NextMove(hash, UNCUT, w, [m1], m2);
    OverlapParts(hash, w1, 1, 2, b);
    Weaken(hash, STRICT, UNCUT, w2, rest);
    Join(hash, UNCUT, w, [m1] + [m2], rest);
    moves := [m1] + [m2] + rest;
  }
}
