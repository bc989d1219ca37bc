/**
 * When overlapping collectors keep the write-once gates, and with them the binding of a passed
 * soak to a passed wheel, whatever crashes: what a collector was admitted on must still hold
 * when it writes.
 */
module GateAdmission {
  import opened Common
  import opened GateStore
  import opened GateInterleaving
  import opened GateOverlap

  /** The checkpoint holds a passed, bound wheel with this provenance and binding. */
  ghost predicate BoundTo(hash: BindHash, checkpoint: Gates, provenance: Option<string>, binding: Option<string>) {
    && BoundWheel(hash, checkpoint)
    && checkpoint["wheel"].details.provenance == provenance
    && checkpoint["wheel"].details.binding == binding
  }

  /** Two passing records satisfy the binding check. */
  ghost predicate BothBound(hash: BindHash, gates: Gates) {
    Passing(gates, "wheel") && Passing(gates, "soak") ==> BoundPair(hash, gates)
  }

  ghost predicate FilesOrdered(hash: BindHash, checkpoint: Gates) {
    && (Passing(checkpoint, "wheel") ==> BoundWheel(hash, checkpoint))
    && ("soak" in checkpoint ==>
          BoundTo(hash, checkpoint, checkpoint["soak"].details.provenance, checkpoint["soak"].details.binding))
  }

  /** What a wheel or soak collector was admitted on. */
  ghost predicate Grounds(hash: BindHash, checkpoint: Gates, r: Record) {
    && IsSha256(r.inputHash)
    && (WriteOnce(r.gateId) ==> Matches(checkpoint, r.gateId, r.inputHash))
    && (r.gateId == "wheel" && r.status == Pass ==> BoundDetails(hash, r.details))
    && (r.gateId == "soak" ==> BoundTo(hash, checkpoint, r.details.provenance, r.details.binding))
  }

  /** A recording collector's copy of the checkpoint, compared with the checkpoint itself. */
  ghost predicate CopyOrdered(hash: BindHash, checkpoint: Gates, r: Record, copy: Gates) {
    && KeepsWriteOnce(copy, checkpoint)
    && Grounds(hash, checkpoint, r)
    && (!Resumes(copy, r) ==>
          WriteOnce(r.gateId) && r.gateId in checkpoint ==> checkpoint[r.gateId] == r)
  }

  ghost predicate LocalOrdered(hash: BindHash, checkpoint: Gates, l: Local) {
    match l
    case Admitted(id, inputHash, bound) =>
      && WriteOnce(id) && IsSha256(inputHash) && Matches(checkpoint, id, inputHash)
      && (id == "soak" ==> bound.Some? && BoundTo(hash, checkpoint, Some(bound.value.0), Some(bound.value.1)))
    case CheckingWheel(_, copy) => KeepsWriteOnce(copy, checkpoint)
    case Bound(provenance, binding) => BoundTo(hash, checkpoint, Some(provenance), Some(binding))
    case Reporting(copy) => BothBound(hash, copy)
    case Judged(r) => r.gateId == "report"
    case HalfRead(r, copy) => CopyOrdered(hash, checkpoint, r, copy)
    case Loaded(r, copy, _) => CopyOrdered(hash, checkpoint, r, copy)
    case _ => true
  }

  ghost predicate OneInput(w: World) {
    forall p, q, id :: p in w.locals && q in w.locals && Pending(w.locals[p], id) && Pending(w.locals[q], id) ==>
      WriteOnce(id) ==> InputOf(w.locals[p]) == InputOf(w.locals[q])
  }

  ghost predicate ReportsOrdered(w: World) {
    forall i :: 0 <= i < |w.reports| ==> (w.reports[i].ready <==> AllPass(w.reports[i].gates))
  }

  /** The invariant of collectors that begin in turn and are admitted in order. */
  ghost predicate Ordered(hash: BindHash, w: World) {
    && InStep(w) && OneInput(w)
    && FilesOrdered(hash, w.checkpoint) && KeepsWriteOnce(w.evidence, w.checkpoint)
    && (forall p :: p in w.locals ==> LocalOrdered(hash, w.checkpoint, w.locals[p]))
    && ReportsOrdered(w)
  }

  /** With the binding in order, five passes are enough for "ready". */
  lemma PassesSuffice(hash: BindHash, gates: Gates)
    requires BothBound(hash, gates)
    ensures Ready(hash, gates) <==> AllPass(gates)
  {
    if AllPass(gates) {
      assert Passing(gates, REQUIRED[2]) && Passing(gates, REQUIRED[3]);
    }
  }

  // ------------------------------------------------------- one move

  /** A move that leaves the checkpoint alone leaves its collector in order. */
  lemma MoverOrdered(hash: BindHash, w: World, m: Move)
    requires Ordered(hash, w) && Enabled(hash, w, m) && !m.action.WriteCheckpoint?
    ensures var v := Apply(hash, w, m);
            && v.checkpoint == w.checkpoint && KeepsWriteOnce(w.checkpoint, v.checkpoint)
            && LocalOrdered(hash, v.checkpoint, v.locals[m.who])
  {
    var l := w.locals[m.who];
    assert LocalOrdered(hash, w.checkpoint, l);
  }

  lemma ReportsStayOrdered(hash: BindHash, w: World, m: Move)
    requires Ordered(hash, w) && Enabled(hash, w, m)
    ensures ReportsOrdered(Apply(hash, w, m))
  {
    if m.action.Judge? {
      assert LocalOrdered(hash, w.checkpoint, w.locals[m.who]);
      PassesSuffice(hash, w.evidence);
    }
  }

  /** Only an admission makes a collector pending for a gate. */
  lemma PendingFrom(hash: BindHash, w: World, m: Move, id: string)
    requires Ordered(hash, w) && Enabled(hash, w, m) && WriteOnce(id)
    requires Pending(Apply(hash, w, m).locals[m.who], id)
    ensures var l' := Apply(hash, w, m).locals[m.who];
            || (Pending(w.locals[m.who], id) && InputOf(w.locals[m.who]) == InputOf(l'))
            || Admits(m, id, InputOf(l'))
  {
    assert LocalOrdered(hash, w.checkpoint, w.locals[m.who]);
  }

  lemma OrderKept(hash: BindHash, w: World, m: Move)
    requires Ordered(hash, w) && Enabled(hash, w, m) && InOrder(w, m)
    ensures OneInput(Apply(hash, w, m))
  {
    hide Enabled, Apply, Pending, LocalOrdered, FilesOrdered, Admits, InStep;
    var v := Apply(hash, w, m);
    OthersStay(hash, w, m);
    forall p, q, id | p in v.locals && q in v.locals
                    && Pending(v.locals[p], id) && Pending(v.locals[q], id) && WriteOnce(id)
      ensures InputOf(v.locals[p]) == InputOf(v.locals[q])
    {
      if p == m.who {
        PendingFrom(hash, w, m, id);
      }
      if q == m.who {
        PendingFrom(hash, w, m, id);
      }
    }
  }

  lemma OthersStay(hash: BindHash, w: World, m: Move)
    requires Enabled(hash, w, m)
    ensures var v := Apply(hash, w, m);
            v.locals.Keys == w.locals.Keys && forall p :: p in w.locals && p != m.who ==> v.locals[p] == w.locals[p]
  {
  }

  /** The writer's record was admitted on what the checkpoint still holds. */
  lemma WriterGrounded(hash: BindHash, w: World, m: Move)
    requires Ordered(hash, w) && Enabled(hash, w, m) && m.action.WriteCheckpoint?
    ensures var r := w.locals[m.who].record;
            && Grounds(hash, w.checkpoint, r)
            && (WriteOnce(r.gateId) && r.gateId in w.checkpoint ==> w.checkpoint[r.gateId] == r)
  {
    assert LocalOrdered(hash, w.checkpoint, w.locals[m.who]);
  }

  lemma StillBound(hash: BindHash, checkpoint: Gates, after: Gates, provenance: Option<string>, binding: Option<string>)
    requires KeepsWriteOnce(checkpoint, after) && BoundTo(hash, checkpoint, provenance, binding)
    ensures BoundTo(hash, after, provenance, binding)
  {
  }

  /** What another collector holds stays in order when the record `r` is written. */
  lemma BystanderOrdered(hash: BindHash, checkpoint: Gates, r: Record, l: Local)
    requires LocalOrdered(hash, checkpoint, l) && KeepsWriteOnce(checkpoint, checkpoint[r.gateId := r])
    requires WriteOnce(r.gateId) && Pending(l, r.gateId) ==> InputOf(l) == r.inputHash
    requires Writer(l) ==> l.record == r
    ensures LocalOrdered(hash, checkpoint[r.gateId := r], l)
  {
    var after := checkpoint[r.gateId := r];
    match l
    case Admitted(id, _, bound) =>
      if id == "soak" {
        StillBound(hash, checkpoint, after, Some(bound.value.0), Some(bound.value.1));
      }
    case Bound(provenance, binding) =>
      StillBound(hash, checkpoint, after, Some(provenance), Some(binding));
    case HalfRead(own, copy) =>
    case Loaded(own, copy, _) =>
    case _ =>
  }

  /** So may it be written. */
  lemma RecordOrdered(hash: BindHash, checkpoint: Gates, r: Record)
    requires FilesOrdered(hash, checkpoint) && Grounds(hash, checkpoint, r)
    requires WriteOnce(r.gateId) && r.gateId in checkpoint ==> checkpoint[r.gateId] == r
    ensures KeepsWriteOnce(checkpoint, checkpoint[r.gateId := r]) && FilesOrdered(hash, checkpoint[r.gateId := r])
  {
    hide IsSha256;
    var after := checkpoint[r.gateId := r];
    if r.gateId == "soak" {
      StillBound(hash, checkpoint, after, r.details.provenance, r.details.binding);
    } else if "soak" in checkpoint {
      var d := checkpoint["soak"].details;
      StillBound(hash, checkpoint, after, d.provenance, d.binding);
    }
  }

  lemma WriterPending(hash: BindHash, w: World, m: Move)
    requires Enabled(hash, w, m) && m.action.WriteCheckpoint?
    ensures m.who in w.locals && w.locals[m.who].Loaded?
    ensures var l := w.locals[m.who];
            && Writer(l) && Pending(l, l.record.gateId) && InputOf(l) == l.record.inputHash
            && forall checkpoint :: LocalOrdered(hash, checkpoint, Apply(hash, w, m).locals[m.who])
  {
  }

  lemma CheckpointOrdered(hash: BindHash, w: World, m: Move)
    requires Ordered(hash, w) && Enabled(hash, w, m) && m.action.WriteCheckpoint?
    ensures var v := Apply(hash, w, m);
            && KeepsWriteOnce(w.checkpoint, v.checkpoint) && FilesOrdered(hash, v.checkpoint)
            && forall p :: p in v.locals ==> LocalOrdered(hash, v.checkpoint, v.locals[p])
  {
    hide Enabled, Apply, FilesOrdered, LocalOrdered, Grounds, KeepsWriteOnce;
    WriterPending(hash, w, m);
    WriterGrounded(hash, w, m);
    CheckpointInStep(hash, w, m);
    var v, l := Apply(hash, w, m), w.locals[m.who];
    RecordOrdered(hash, w.checkpoint, l.record);
    OthersStay(hash, w, m);
    forall p | p in v.locals ensures LocalOrdered(hash, v.checkpoint, v.locals[p]) {
      if p != m.who {
        assert Writer(w.locals[p]) ==> w.locals[p].record == l.record;
        BystanderOrdered(hash, w.checkpoint, l.record, w.locals[p]);
      }
    }
  }

  /** The evidence gets what the checkpoint holds. */
  lemma EvidenceFollows(hash: BindHash, w: World, m: Move)
    requires InStep(w) && KeepsWriteOnce(w.evidence, w.checkpoint) && Enabled(hash, w, m)
    requires KeepsWriteOnce(w.checkpoint, Apply(hash, w, m).checkpoint)
    ensures var v := Apply(hash, w, m);
            KeepsWriteOnce(w.evidence, v.evidence) && KeepsWriteOnce(v.evidence, v.checkpoint)
  {
    hide InStep;
    if m.action.WriteEvidence? {
      EvidenceInStep(hash, w, m);
    }
  }

  /** One move keeps everything in order, and the write-once gates of both files as they are. */
  lemma MoveOrdered(hash: BindHash, w: World, m: Move)
    requires Ordered(hash, w) && Enabled(hash, w, m) && Allowed(ORDERLY, w, m)
    ensures Ordered(hash, Apply(hash, w, m))
    ensures WriteOnceKept(w, Apply(hash, w, m))
  {
    hide Enabled, Apply, FilesOrdered, LocalOrdered, InTurn, InOrder, InStep, OneInput, ReportsOrdered, KeepsWriteOnce;
    ReportsStayOrdered(hash, w, m);
    MoveInStep(hash, w, m);
    OrderKept(hash, w, m);
    if m.action.WriteCheckpoint? {
      CheckpointOrdered(hash, w, m);
    } else {
      MoverOrdered(hash, w, m);
      OthersStay(hash, w, m);
    }
    EvidenceFollows(hash, w, m);
  }

  /** The wheel and soak records of both files are still there, unchanged. */
  ghost predicate WriteOnceKept(before: World, after: World) {
    KeepsWriteOnce(before.checkpoint, after.checkpoint) && KeepsWriteOnce(before.evidence, after.evidence)
  }

  lemma {:induction false} RunOrdered(hash: BindHash, w: World, moves: seq<Move>, k: nat)
    requires Ordered(hash, w) && Possible(hash, ORDERLY, w, moves) && k <= |moves|
    ensures Ordered(hash, End(hash, w, moves))
    ensures WriteOnceKept(End(hash, w, moves[..k]), End(hash, w, moves))
  {
    hide Ordered, Enabled, Apply, Allowed;
    if moves == [] {
      assert moves[..k] == moves;
    } else {
      var before := Init(moves);
      RunOrdered(hash, w, before, if k < |moves| then k else 0);
      MoveOrdered(hash, End(hash, w, before), Last(moves));
      if k == |moves| {
        assert moves[..k] == moves;
      } else {
        assert moves[..k] == before[..k];
      }
    }
  }

  /** No wheel and no soak record, once in the checkpoint or in the evidence, is ever replaced there. */
  ghost predicate Steadfast(hash: BindHash, w: World, moves: seq<Move>) {
    forall k :: 0 <= k <= |moves| ==> WriteOnceKept(End(hash, w, moves[..k]), End(hash, w, moves))
  }

  lemma OrderedIsSteadfast(hash: BindHash, w: World, moves: seq<Move>)
    requires Ordered(hash, w) && Possible(hash, ORDERLY, w, moves)
    ensures Steadfast(hash, w, moves)
  {
    forall k | 0 <= k <= |moves| ensures WriteOnceKept(End(hash, w, moves[..k]), End(hash, w, moves)) {
      RunOrdered(hash, w, moves, k);
    }
  }

  /**
   * Collectors that begin in turn and are admitted in order, cut off anywhere: the wheel and soak
   * records are written once, two passing ones satisfy the binding check, and a report
   * says "ready" as soon as the five gates it judges pass.
   */
  lemma OrderlyRuns(hash: BindHash, w: World, moves: seq<Move>)
    requires Start(w) && Possible(hash, ORDERLY, w, moves)
    ensures Steadfast(hash, w, moves)
    ensures var v := End(hash, w, moves);
            && BothBound(hash, v.checkpoint) && BothBound(hash, v.evidence)
            && KeepsWriteOnce(v.evidence, v.checkpoint)
    ensures var reports := End(hash, w, moves).reports;
            forall i :: 0 <= i < |reports| ==> (reports[i].ready <==> AllPass(reports[i].gates))
  {
    RunOrdered(hash, w, moves, 0);
    OrderedIsSteadfast(hash, w, moves);
  }

  // ------------------------------------------------------- and no other admission is safe

  lemma RestartApplies(hash: BindHash, w: World, o: int)
    requires o in w.locals
    ensures var m := Move(o, Restart);
            && Enabled(hash, w, m) && Allowed(ORDERLY, w, m)
            && Apply(hash, w, m) == w.(locals := w.locals[o := Idle])
  {
  }

  /** One by one, the collectors in `others` stop. */
  lemma {:induction false} SendHome(hash: BindHash, w: World, others: set<int>) returns (moves: seq<Move>)
    requires others <= w.locals.Keys
    ensures Possible(hash, ORDERLY, w, moves)
    ensures var v := End(hash, w, moves);
            && v.checkpoint == w.checkpoint && v.evidence == w.evidence && v.reports == w.reports
            && v.locals.Keys == w.locals.Keys
            && forall o :: o in w.locals ==> v.locals[o] == if o in others then Idle else w.locals[o]
    decreases |others|
  {
    hide Possible, End, Enabled, Apply, Allowed;
    if o :| o in others {
      var before := SendHome(hash, w, others - {o});
      RestartApplies(hash, End(hash, w, before), o);
      NextMove(hash, ORDERLY, w, before, Move(o, Restart));
      moves := before + [Move(o, Restart)];
    } else {
      moves := [];
      NoMoves(hash, ORDERLY, w);
    }
  }

  /** A failed record that a collector admitted so may always make. */
  function Failure(l: Local): Record
    requires l.Admitted?
  {
    Record(l.id, l.inputHash, Fail,
           Details(None, if l.bound.Some? then Some(l.bound.value.0) else None,
                   if l.bound.Some? then Some(l.bound.value.1) else None, ""))
  }

  lemma FailureMayBe(hash: BindHash, checkpoint: Gates, l: Local)
    requires l.Admitted? && LocalOrdered(hash, checkpoint, l)
    ensures MayRecord(hash, l, Failure(l))
  {
  }

  /** The record a pending collector comes to write, and its moves. */
  function Coming(l: Local): Record
    requires l.Admitted? || l.HalfRead? || l.Loaded?
  {
    if l.Admitted? then Failure(l) else l.record
  }

  function Completion(p: int, l: Local): seq<Move>
    requires l.Admitted? || l.HalfRead? || l.Loaded?
  {
    if l.Admitted? then Solo(p, Failure(l)) else if l.HalfRead? then LoadAndWrite(p) else Writes(p)
  }

  /** A pending collector whose gate is not there yet can put it there, if nobody else writes. */
  lemma PendingCompletes(hash: BindHash, w: World, p: int, id: string)
    requires p in w.locals && WriteOnce(id) && Pending(w.locals[p], id) && LocalOrdered(hash, w.checkpoint, w.locals[p])
    requires id !in w.checkpoint && forall o :: o in w.locals && o != p ==> !Writer(w.locals[o])
    ensures var v, r := End(hash, w, Completion(p, w.locals[p])), Coming(w.locals[p]);
            && Possible(hash, STRICT, w, Completion(p, w.locals[p]))
            && r.gateId == id && r.inputHash == InputOf(w.locals[p])
            && id in v.checkpoint && v.checkpoint[id] == r && v.locals == w.locals[p := Idle]
  {
    var l := w.locals[p];
    hide Possible, End, Solo, LoadAndWrite, Writes;
    if l.Admitted? {
      FailureMayBe(hash, w.checkpoint, l);
      SoloRecords(hash, w, p, Failure(l));
    } else if l.HalfRead? {
      LoadsAndWrites(hash, w, p);
    } else {
      TwoWrites(hash, w, p);
    }
  }

  /** The gate that `q` was admitted for, recorded meanwhile with another input, is replaced. */
  lemma AdmittedReplaces(hash: BindHash, w: World, q: int)
    requires Quiet(w) && q in w.locals && w.locals[q].Admitted? && MayRecord(hash, w.locals[q], Failure(w.locals[q]))
    requires var l := w.locals[q];
             l.id in w.checkpoint && w.checkpoint[l.id].inputHash != l.inputHash && WriteOnce(l.id)
    ensures var moves := Solo(q, Failure(w.locals[q]));
            && Possible(hash, STRICT, w, moves)
            && !KeepsWriteOnce(w.checkpoint, End(hash, w, moves).checkpoint)
  {
    hide Possible, End, Solo, Quiet, MayRecord;
    SoloRecords(hash, w, q, Failure(w.locals[q]));
  }

  lemma NotSteadfast(hash: BindHash, w: World, a: seq<Move>, b: seq<Move>)
    requires !WriteOnceKept(End(hash, w, a), End(hash, End(hash, w, a), b))
    ensures !Steadfast(hash, w, a + b)
  {
    hide End, WriteOnceKept;
    JoinEnds(hash, w, a, b);
    assert (a + b)[..|a|] == a;
  }

  lemma LaterNotSteadfast(hash: BindHash, w: World, a: seq<Move>, b: seq<Move>)
    requires !Steadfast(hash, End(hash, w, a), b)
    ensures !Steadfast(hash, w, a + b)
  {
    hide End, WriteOnceKept;
    var k :| 0 <= k <= |b| && !WriteOnceKept(End(hash, End(hash, w, a), b[..k]), End(hash, End(hash, w, a), b));
    JoinEnds(hash, w, a, b[..k]);
    JoinEnds(hash, w, a, b);
    assert (a + b)[..|a| + k] == a + b[..k];
  }

  /** With nobody else at work, both complete, and the second replaces the first. */
  lemma TwoReplace(hash: BindHash, w: World, p: int, q: int, id: string) returns (moves: seq<Move>)
    requires p in w.locals && q in w.locals && p != q && WriteOnce(id) && id !in w.checkpoint
    requires LocalOrdered(hash, w.checkpoint, w.locals[p]) && LocalOrdered(hash, w.checkpoint, w.locals[q])
    requires Pending(w.locals[p], id) && w.locals[q].Admitted? && w.locals[q].id == id
    requires InputOf(w.locals[p]) != InputOf(w.locals[q])
    requires forall o :: o in w.locals && o != p && o != q ==> w.locals[o].Idle?
    ensures Possible(hash, ORDERLY, w, moves) && !Steadfast(hash, w, moves)
  {
    hide Possible, End, Solo, LocalOrdered, MayRecord, Completion, Steadfast;
    var l := w.locals[q];
    var first, second := Completion(p, w.locals[p]), Solo(q, Failure(l));
    FailureMayBe(hash, w.checkpoint, l);
    PendingCompletes(hash, w, p, id);
    Weaken(hash, STRICT, ORDERLY, w, first);
    AdmittedReplaces(hash, End(hash, w, first), q);
    Weaken(hash, STRICT, ORDERLY, End(hash, w, first), second);
    NotSteadfast(hash, w, first, second);
    Join(hash, ORDERLY, w, first, second);
    moves := first + second;
  }

  /** Two collectors pending for one gate with different inputs can replace it between them. */
  lemma OverlapReplaces(hash: BindHash, w: World, p: int, q: int, id: string) returns (moves: seq<Move>)
    requires p in w.locals && q in w.locals && p != q && WriteOnce(id) && id !in w.checkpoint
    requires LocalOrdered(hash, w.checkpoint, w.locals[p]) && LocalOrdered(hash, w.checkpoint, w.locals[q])
    requires Pending(w.locals[p], id) && w.locals[q].Admitted? && w.locals[q].id == id
    requires InputOf(w.locals[p]) != InputOf(w.locals[q])
    ensures Possible(hash, ORDERLY, w, moves) && !Steadfast(hash, w, moves)
  {
    hide Possible, End, LocalOrdered, Steadfast, Pending, InputOf;
    var home := SendHome(hash, w, w.locals.Keys - {p, q});
    var rest := TwoReplace(hash, End(hash, w, home), p, q, id);
    Join(hash, ORDERLY, w, home, rest);
    LaterNotSteadfast(hash, w, home, rest);
    moves := home + rest;
  }

  lemma AdmissionApplies(hash: BindHash, w: World, m: Move, id: string, inputHash: string)
    requires Enabled(hash, w, m) && Admits(m, id, inputHash)
    ensures var v := Apply(hash, w, m);
            && v.checkpoint == w.checkpoint && Matches(w.checkpoint, id, inputHash) && WriteOnce(id)
            && v.locals[m.who].Admitted? && v.locals[m.who].id == id && InputOf(v.locals[m.who]) == inputHash
            && forall id', inputHash' :: Admits(m, id', inputHash') ==> id' == id && inputHash' == inputHash
  {
  }

  /**
   * A wheel or a soak may be admitted safely exactly in order. From any state that orderly
   * collectors reach: if every other one pending for the gate has the same input, no wheel and no
   * soak record is ever replaced, however orderly collectors go on; if one has another input, some
   * orderly continuation replaces one.
   */
  lemma AdmissionIsSafeIff(hash: BindHash, w: World, m: Move, id: string, inputHash: string)
    requires Ordered(hash, w) && Enabled(hash, w, m) && Admits(m, id, inputHash)
    ensures InOrder(w, m) <==>
            forall moves :: Possible(hash, ORDERLY, Apply(hash, w, m), moves) ==>
                              Steadfast(hash, Apply(hash, w, m), moves)
  {
    var w' := Apply(hash, w, m);
    AdmissionApplies(hash, w, m, id, inputHash);
    OthersStay(hash, w, m);
    if InOrder(w, m) {
      hide Ordered, Steadfast, Possible, Enabled, Apply, InOrder;
      assert Allowed(ORDERLY, w, m) by {
        assert InTurn(w, m);
      }
      MoveOrdered(hash, w, m);
      forall moves | Possible(hash, ORDERLY, w', moves) ensures Steadfast(hash, w', moves) {
        OrderedIsSteadfast(hash, w', moves);
      }
    } else {
      var p :| p in w.locals && p != m.who && Pending(w.locals[p], id) && InputOf(w.locals[p]) != inputHash;
      hide Steadfast, Possible, Enabled, Apply, InOrder;
      assert !m.action.WriteCheckpoint?;
      MoverOrdered(hash, w, m);
      assert LocalOrdered(hash, w.checkpoint, w.locals[p]);
      PendingMatches(hash, w.checkpoint, w.locals[p], id);
      var moves := OverlapReplaces(hash, w', p, m.who, id);
    }
  }

  lemma PendingMatches(hash: BindHash, checkpoint: Gates, l: Local, id: string)
    requires LocalOrdered(hash, checkpoint, l) && Pending(l, id) && WriteOnce(id)
    ensures Matches(checkpoint, id, InputOf(l))
  {
  }

  // ------------------------------------------------------- what an admission out of order can do

  /** Two wheel collectors admitted with different inputs, a third collector idle, and nobody writing. */
  ghost predicate TwoWheels(w: World, p: int, q: int, r: int) {
    && p in w.locals && q in w.locals && r in w.locals && p != q && q != r && p != r
    && w.checkpoint == w.evidence && ValidRecords(w.checkpoint)
    && "wheel" !in w.checkpoint && "soak" !in w.checkpoint
    && w.locals[p].Admitted? && w.locals[p].id == "wheel" && w.locals[q].Admitted? && w.locals[q].id == "wheel"
    && IsSha256(w.locals[p].inputHash) && IsSha256(w.locals[q].inputHash)
    && w.locals[p].inputHash != w.locals[q].inputHash && w.locals[r].Idle?
    && Quiet(w) && forall o :: o in w.locals ==> !Pending(w.locals[o], "soak")
  }

  function BreakingMoves(hash: BindHash, p: int, q: int, r: int, h: string, h': string): seq<Move>
    requires IsSha256(h) && IsSha256(h')
  {
    Solo(p, PassedWheel(hash, '0', h)) + SoakMoves(r, Digest('0'), PassedSoak(hash, '0', h))
    + Solo(q, PassedWheel(hash, '1', h'))
  }

  /** The files after the first wheel, and after the soak. */
  lemma FirstWheel(hash: BindHash, w: World, p: int, q: int, r: int)
    requires TwoWheels(w, p, q, r)
    ensures var a := PassedWheel(hash, '0', w.locals[p].inputHash);
            var w1 := Written(w, p, a, w.checkpoint, w.evidence);
            && Possible(hash, STRICT, w, Solo(p, a)) && End(hash, w, Solo(p, a)) == w1
            && w1.checkpoint == w1.evidence && ValidRecords(w1.checkpoint) && BoundWheel(hash, w1.checkpoint)
            && w1.checkpoint["wheel"] == a
            && "soak" !in w1.checkpoint && Quiet(w1) && w1.locals[r].Idle? && w1.locals[q] == w.locals[q]
            && forall o :: o in w1.locals ==> !Pending(w1.locals[o], "soak")
  {
    hide Possible, End, Solo;
    SoloRecords(hash, w, p, PassedWheel(hash, '0', w.locals[p].inputHash));
  }

  lemma QuietStays(w: World, r: Record)
    requires Quiet(w)
    ensures Quiet(AndWritten(w, r))
  {
  }

  /**
   * Then a passed soak can end up beside a passed wheel of another candidate,
   * without a crash or an overlapping write.
   */
  lemma BindingBreaks(hash: BindHash, w: World, p: int, q: int, r: int)
    requires TwoWheels(w, p, q, r)
    ensures var moves := BreakingMoves(hash, p, q, r, w.locals[p].inputHash, w.locals[q].inputHash);
            var v := End(hash, w, moves);
            && Possible(hash, STRICT, w, moves) && v.checkpoint == v.evidence
            && !Steadfast(hash, w, moves) && !BothBound(hash, v.checkpoint)
  {
    hide Possible, End, Solo, SoakMoves, Steadfast, Quiet, Pending;
    var h, h' := w.locals[p].inputHash, w.locals[q].inputHash;
    var a, s, b := PassedWheel(hash, '0', h), PassedSoak(hash, '0', h), PassedWheel(hash, '1', h');
    FirstWheel(hash, w, p, q, r);
    var w1 := Written(w, p, a, w.checkpoint, w.evidence);
    RecordsSoak(hash, w1, r, s);
    Join(hash, STRICT, w, Solo(p, a), SoakMoves(r, Digest('0'), s));
    var w2 := AndWritten(w1, s);
    QuietStays(w1, s);
    SoloRecords(hash, w2, q, b);
    Join(hash, STRICT, w, Solo(p, a) + SoakMoves(r, Digest('0'), s), Solo(q, b));
    NotSteadfast(hash, w, Solo(p, a) + SoakMoves(r, Digest('0'), s), Solo(q, b));
    DigestsDiffer();
  }

  function ThreeIdle(): World {
    World(NO_GATES, NO_GATES, map[1 := Idle, 2 := Idle, 3 := Idle], [])
  }

  /** Two wheel collectors admitted to an empty store. */
  function TwoAdmitted(h: string, h': string): World {
    World(NO_GATES, NO_GATES, map[1 := Admitted("wheel", h, None), 2 := Admitted("wheel", h', None), 3 := Idle], [])
  }

  lemma BothAdmitted(hash: BindHash, h: string, h': string)
    requires IsSha256(h) && IsSha256(h')
    ensures var moves := [Move(1, AdmitWheel(h)), Move(2, AdmitWheel(h'))];
            Possible(hash, CAREFUL, ThreeIdle(), moves) && End(hash, ThreeIdle(), moves) == TwoAdmitted(h, h')
  {
    var w, m1, m2 := ThreeIdle(), Move(1, AdmitWheel(h)), Move(2, AdmitWheel(h'));
    var w1 := w.(locals := w.locals[1 := Admitted("wheel", h, None)]);
    assert Enabled(hash, w, m1) && Apply(hash, w, m1) == w1 && Allowed(CAREFUL, w, m1);
    assert Enabled(hash, w1, m2) && Apply(hash, w1, m2) == TwoAdmitted(h, h') && Allowed(CAREFUL, w1, m2);
    hide Possible, End, Enabled, Apply, Allowed;
    OneMove(hash, CAREFUL, w, m1);
    NextMove(hash, CAREFUL, w, [m1], m2);
    assert [m1] + [m2] == [m1, m2];
  }

  /** A run from the empty store that does so: nothing in it is cut off and no two collectors write at once. */
  lemma WheelReplaced(hash: BindHash, h: string, h': string) returns (moves: seq<Move>)
    requires IsSha256(h) && IsSha256(h') && h != h'
    ensures Start(ThreeIdle()) && Possible(hash, CAREFUL, ThreeIdle(), moves) && !Steadfast(hash, ThreeIdle(), moves)
    ensures var v := End(hash, ThreeIdle(), moves); v.checkpoint == v.evidence && !BothBound(hash, v.checkpoint)
  {
    var w, v := ThreeIdle(), TwoAdmitted(h, h');
    var first, rest := [Move(1, AdmitWheel(h)), Move(2, AdmitWheel(h'))], BreakingMoves(hash, 1, 2, 3, h, h');
    assert TwoWheels(v, 1, 2, 3);
    hide Possible, End, TwoWheels, Steadfast, BreakingMoves, BothBound;
    BothAdmitted(hash, h, h');
    BindingBreaks(hash, v, 1, 2, 3);
    Weaken(hash, STRICT, CAREFUL, v, rest);
    Join(hash, CAREFUL, w, first, rest);
    LaterNotSteadfast(hash, w, first, rest);
    moves := first + rest;
  }
}
