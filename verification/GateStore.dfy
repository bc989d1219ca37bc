/** The two-file gate store: checkpoint first, evidence second, a crash possible between them. */
module GateStore {
  import opened Common

  datatype Status = Pass | Fail

  datatype Details = Details(
    wheelSha256: Option<string>, provenance: Option<string>, binding: Option<string>, other: string)

  datatype Record = Record(gateId: string, inputHash: string, status: Status, details: Details)

  type Gates = map<string, Record>

  /** How a step of a collector ends: done, refused with a category, or cut off by a crash. */
  datatype Step = Done | Refused(category: string) | Crashed

  const REQUIRED := ["preflight", "issues", "wheel", "soak", "final_code_audit"]

  predicate IsSha256(s: string) {
    |s| == 64 && forall i :: 0 <= i < |s| ==> '0' <= s[i] <= '9' || 'a' <= s[i] <= 'f'
  }

  /** The canonical hash of a provenance digest and a wheel digest, as an arbitrary function. */
  type BindHash = (string, string) -> string

  function BindingDigest(hash: BindHash, wheelSha256: Option<string>, provenance: Option<string>): Option<string> {
    if wheelSha256.Some? && IsSha256(wheelSha256.value) && provenance.Some? && IsSha256(provenance.value)
    then Some(hash(provenance.value, wheelSha256.value)) else None
  }

  predicate ValidRecords(gates: Gates) {
    forall id :: id in gates ==> gates[id].gateId == id && IsSha256(gates[id].inputHash)
  }

  predicate Passing(gates: Gates, id: string) {
    id in gates && gates[id].status == Pass
  }

  /** A passed wheel gate whose own binding is the digest of its wheel and provenance. */
  predicate BoundWheel(hash: BindHash, gates: Gates) {
    && Passing(gates, "wheel")
    && var d := gates["wheel"].details;
    && BindingDigest(hash, d.wheelSha256, d.provenance).Some?
    && d.binding == BindingDigest(hash, d.wheelSha256, d.provenance)
  }

  /** Passed wheel and soak gates that name one candidate wheel. */
  predicate BoundPair(hash: BindHash, gates: Gates) {
    && BoundWheel(hash, gates)
    && Passing(gates, "soak")
    && gates["soak"].details.binding == gates["wheel"].details.binding
    && gates["soak"].details.provenance == gates["wheel"].details.provenance
  }

  predicate AllPass(gates: Gates) {
    forall i :: 0 <= i < |REQUIRED| ==> Passing(gates, REQUIRED[i])
  }

  lemma FivePass(gates: Gates)
    ensures AllPass(gates) <==>
            forall id :: id in {"preflight", "issues", "wheel", "soak", "final_code_audit"} ==>
              id in gates && gates[id].status == Pass
  {
    assert REQUIRED == ["preflight", "issues", "wheel", "soak", "final_code_audit"];
    if AllPass(gates) {
      assert forall i :: 0 <= i < 5 ==> Passing(gates, REQUIRED[i]);
      assert Passing(gates, REQUIRED[0]) && Passing(gates, REQUIRED[1]) && Passing(gates, REQUIRED[2]);
      assert Passing(gates, REQUIRED[3]) && Passing(gates, REQUIRED[4]);
    }
  }

  /** The verdict of the rendered summary. */
  predicate Ready(hash: BindHash, gates: Gates) {
    AllPass(gates) && BoundPair(hash, gates)
  }

  /** A collector that resumes: the gate is already checkpointed for the same input. */
  predicate Resumes(checkpoint: Gates, record: Record) {
    record.gateId in checkpoint && checkpoint[record.gateId].inputHash == record.inputHash
  }

  /** The two gates that are recorded once and for all. */
  predicate WriteOnce(id: string) {
    id == "wheel" || id == "soak"
  }

  /**
   * What every run of collectors, one after another and cut off anywhere, keeps:
   * well-formed records, evidence never ahead of the checkpoint on the write-once
   * gates, and a passed soak always bound to the passed wheel beside it.
   */
  ghost predicate StoreInvariant(hash: BindHash, checkpoint: Gates, evidence: Gates) {
    && ValidRecords(checkpoint) && ValidRecords(evidence)
    && (forall id :: WriteOnce(id) && id in evidence ==> id in checkpoint && evidence[id] == checkpoint[id])
    && (Passing(checkpoint, "wheel") ==> BoundWheel(hash, checkpoint))
    && (Passing(checkpoint, "soak") ==> BoundPair(hash, checkpoint))
  }

  /** A write-once gate, once checkpointed, stays as it is. */
  ghost predicate KeepsWriteOnce(before: Gates, after: Gates) {
    forall id :: WriteOnce(id) && id in before ==> id in after && after[id] == before[id]
  }

  /** Every gate but one is as before. */
  ghost predicate OthersKept(before: Gates, after: Gates, id: string) {
    forall k :: k != id ==> (k in before <==> k in after) && (k in before && k in after ==> after[k] == before[k])
  }

  /** A record stands in both files. */
  predicate InBoth(checkpoint: Gates, evidence: Gates, record: Record) {
    && record.gateId in checkpoint && checkpoint[record.gateId] == record
    && record.gateId in evidence && evidence[record.gateId] == record
  }

  /** A record that a collector may write: the write-once gates only fresh, or for the input they have. */
  ghost predicate Writable(hash: BindHash, checkpoint: Gates, record: Record) {
    && IsSha256(record.inputHash)
    && (WriteOnce(record.gateId) && record.gateId in checkpoint ==> Resumes(checkpoint, record))
    && (record.gateId == "wheel" && record.status == Pass ==> BoundWheel(hash, checkpoint["wheel" := record]))
    && (record.gateId == "soak" && record.status == Pass ==> BoundPair(hash, checkpoint["soak" := record]))
  }

  lemma WriteCheckpointKeeps(hash: BindHash, checkpoint: Gates, evidence: Gates, record: Record)
    requires StoreInvariant(hash, checkpoint, evidence) && Writable(hash, checkpoint, record)
    requires !Resumes(checkpoint, record)
    ensures StoreInvariant(hash, checkpoint[record.gateId := record], evidence)
    ensures StoreInvariant(hash, checkpoint[record.gateId := record], evidence[record.gateId := record])
    ensures KeepsWriteOnce(checkpoint, checkpoint[record.gateId := record])
  {
  }

  class Store {
    const hash: BindHash
    var checkpoint: Gates
    var evidence: Gates

    ghost predicate Valid()
      reads this
    {
      StoreInvariant(hash, checkpoint, evidence)
    }

    /** An empty output directory. */
    constructor (hash: BindHash)
      ensures Valid() && this.hash == hash && checkpoint == map[] && evidence == map[]
    {
      this.hash, this.checkpoint, this.evidence := hash, map[], map[];
    }

    /**
     * Record one gate. A resumed gate changes nothing and must find the same record in
     * both files; a new one replaces first the checkpoint and then the evidence.
     */
    method RecordGate(record: Record) returns (step: Step)
      requires Valid() && Writable(hash, checkpoint, record)
      modifies this
      ensures Valid() && KeepsWriteOnce(old(checkpoint), checkpoint)
      ensures Resumes(old(checkpoint), record) ==>
                && checkpoint == old(checkpoint) && evidence == old(evidence)
                && step == if old(checkpoint)[record.gateId] == record
                              && record.gateId in evidence && evidence[record.gateId] == record
                           then Done else Refused("evidence_invalid")
      ensures !Resumes(old(checkpoint), record) ==>
                var newCheckpoint, newEvidence :=
                  old(checkpoint)[record.gateId := record], old(evidence)[record.gateId := record];
                || (step == Done && checkpoint == newCheckpoint && evidence == newEvidence)
                || (step == Crashed && checkpoint == old(checkpoint) && evidence == old(evidence))
                || (step == Crashed && checkpoint == newCheckpoint && evidence == old(evidence))
                || (step == Crashed && checkpoint == newCheckpoint && evidence == newEvidence)
    {
      if Resumes(checkpoint, record) {
        if record.gateId !in evidence || checkpoint[record.gateId] != record || evidence[record.gateId] != record {
          return Refused("evidence_invalid");
        }
        return Done;
      }
      WriteCheckpointKeeps(hash, checkpoint, evidence, record);
      var crash: bool := *;
      if crash {
        return Crashed;
      }
      checkpoint := checkpoint[record.gateId := record];
      crash := *;
      if crash {
        return Crashed;
      }
      evidence := evidence[record.gateId := record];
      crash := *;
      return if crash then Crashed else Done;
    }

    /** A gate recorded for another input stops its collector. */
    method RequireMatchingInput(gateId: string, inputHash: string) returns (step: Step)
      ensures step == if gateId in checkpoint && checkpoint[gateId].inputHash != inputHash
                      then Refused("gate_resume_mismatch") else Done
    {
      if gateId in checkpoint && checkpoint[gateId].inputHash != inputHash {
        return Refused("gate_resume_mismatch");
      }
      return Done;
    }

    /** A passed wheel gate, the same in both files, bound to the live candidate. */
    method RequireBoundWheel(provenance: string) returns (r: Result<string, string>)
      requires Valid()
      ensures r.Ok? <==> checkpoint == evidence && BoundWheel(hash, checkpoint)
                         && checkpoint["wheel"].details.provenance == Some(provenance)
      ensures r.Ok? ==> checkpoint["wheel"].details.binding == Some(r.value)
    {
      if !ValidRecords(checkpoint) || !ValidRecords(evidence) || checkpoint != evidence {
        return Err("evidence_invalid");
      }
      if !Passing(checkpoint, "wheel") {
        return Err("soak_wheel_binding_missing");
      }
      var d := checkpoint["wheel"].details;
      var expected := BindingDigest(hash, d.wheelSha256, d.provenance);
      if expected.None? || d.binding != expected {
        return Err("soak_wheel_binding_invalid");
      }
      if d.provenance != Some(provenance) {
        return Err("soak_candidate_provenance_mismatch");
      }
      return Ok(expected.value);
    }

    /**
     * The wheel collector. `checks` is the verdict of its probes, or nothing when an error cut
     * them short; an error, also one from recording the verdict, is recorded as a failure.
     */
    method CollectWheel(inputHash: string, wheelSha256: string, provenance: string, checks: Option<bool>, other: string)
      returns (step: Step)
      requires Valid() && IsSha256(inputHash) && IsSha256(wheelSha256)
      modifies this
      ensures Valid() && KeepsWriteOnce(old(checkpoint), checkpoint)
      ensures OthersKept(old(checkpoint), checkpoint, "wheel") && OthersKept(old(evidence), evidence, "wheel")
      ensures "wheel" in old(checkpoint) && old(checkpoint)["wheel"].inputHash != inputHash ==>
                step == Refused("gate_resume_mismatch") && checkpoint == old(checkpoint) && evidence == old(evidence)
      ensures step == Done ==>
                && "wheel" in checkpoint && checkpoint["wheel"].inputHash == inputHash
                && InBoth(checkpoint, evidence, checkpoint["wheel"])
                && (checkpoint["wheel"].status == Pass ==> checks == Some(true))
      ensures step == Done && "wheel" !in old(checkpoint) ==>
                checkpoint["wheel"] == (
                  if checks.Some? && IsSha256(provenance)
                  then Record("wheel", inputHash, if checks.value then Pass else Fail,
                              Details(Some(wheelSha256), Some(provenance), Some(hash(provenance, wheelSha256)), other))
                  else Record("wheel", inputHash, Fail, Details(Some(wheelSha256), None, None, other)))
      ensures step == Done && old(checkpoint) == old(evidence) ==> checkpoint == evidence
    {
      step := RequireMatchingInput("wheel", inputHash);
      if step != Done {
        return;
      }
      var binding := BindingDigest(hash, Some(wheelSha256), Some(provenance));
      if checks.Some? && binding.Some? {
        var record := Record("wheel", inputHash, if checks.value then Pass else Fail,
                             Details(Some(wheelSha256), Some(provenance), binding, other));
        step := RecordGate(record);
        if !step.Refused? {
          return;
        }
      }
      step := RecordGate(Record("wheel", inputHash, Fail, Details(Some(wheelSha256), None, None, other)));
    }

    /** The collectors whose gate may be recorded again for a new input. */
    method CollectOther(gateId: string, inputHash: string, status: Status, details: Details) returns (step: Step)
      requires Valid() && IsSha256(inputHash) && !WriteOnce(gateId)
      modifies this
      ensures Valid() && KeepsWriteOnce(old(checkpoint), checkpoint)
      ensures OthersKept(old(checkpoint), checkpoint, gateId) && OthersKept(old(evidence), evidence, gateId)
      ensures step == Done ==> InBoth(checkpoint, evidence, Record(gateId, inputHash, status, details))
      ensures gateId !in old(checkpoint) || old(checkpoint)[gateId].inputHash != inputHash ==> !step.Refused?
      ensures step == Done && old(checkpoint) == old(evidence) ==> checkpoint == evidence
    {
      step := RecordGate(Record(gateId, inputHash, status, details));
    }

    /**
     * The report. `ready` is said exactly when the two files hold the same gates and the five
     * required ones pass: the binding check it also makes can then no longer fail.
     */
    method CollectReport(reportHash: Gates -> string) returns (ready: bool, step: Step)
      requires Valid() && forall gates :: IsSha256(reportHash(gates))
      modifies this
      ensures Valid() && KeepsWriteOnce(old(checkpoint), checkpoint)
      ensures old(checkpoint) != old(evidence) ==> step.Refused? && !ready && checkpoint == old(checkpoint)
      ensures old(checkpoint) == old(evidence) ==>
                && (ready <==> AllPass(old(evidence)))
                && (ready ==> Ready(hash, old(evidence)))
                && (ready <==> forall id :: id in {"preflight", "issues", "wheel", "soak", "final_code_audit"} ==>
                      id in old(evidence) && old(evidence)[id].status == Pass)
                && (ready ==>
                      var wheel, soak := old(evidence)["wheel"].details, old(evidence)["soak"].details;
                      && wheel.wheelSha256.Some? && wheel.provenance.Some? && soak.provenance == wheel.provenance
                      && soak.binding == wheel.binding == Some(hash(wheel.provenance.value, wheel.wheelSha256.value)))
                && OthersKept(old(checkpoint), checkpoint, "report") && OthersKept(old(evidence), evidence, "report")
                && (step == Done ==> InBoth(checkpoint, evidence, ReportRecord(reportHash(old(evidence)), ready)))
                && (step == Done ==>
                      && evidence["report"].status == Pass
                      && evidence["report"].details.other == if ready then "ready" else "not ready")
                && (step == Done ==> checkpoint == evidence)
    {
      if !ValidRecords(checkpoint) || !ValidRecords(evidence) || checkpoint != evidence {
        return false, Refused("evidence_invalid");
      }
      assert Passing(checkpoint, REQUIRED[3]) ==> Passing(checkpoint, "soak");
      FivePass(evidence);
      ready := Ready(hash, evidence);
      step := RecordGate(ReportRecord(reportHash(evidence), ready));
    }
  }

  function ReportRecord(inputHash: string, ready: bool): Record {
    Record("report", inputHash, Pass, Details(None, None, None, if ready then "ready" else "not ready"))
  }

}
